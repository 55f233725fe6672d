/** Bounded length-prefixed frames, and what the bytes on both pipes say at every moment of a supervised dialogue
    (recon_cockpit/secure_agent/coordinator_ipc.py). */
module CoordinatorFrames {
  import opened Prelude

  newtype byte = b: int | 0 <= b < 256
  type Bytes = seq<byte>

  datatype Kind = Init | Request | Response | Final | Ready

  const MAX_REQUESTS := 17
  const MAX_OFFLINE_REQUESTS := 32
  const MAX_STDERR_BYTES := 4096

  function Tag(kind: Kind): byte {
    match kind
    case Init => 1
    case Request => 2
    case Response => 3
    case Final => 4
    case Ready => 5
  }

  function Limit(kind: Kind): nat {
    match kind
    case Init => 512
    case Request => 20480
    case Response => 12288
    case Final => 512
    case Ready => 1024
  }

  // ---------------------------------------------------------------- frames

  /** int.to_bytes(width, "big"), reduced modulo 256^width. */
  function ToBytes(n: nat, width: nat): (r: Bytes)
    ensures |r| == width
  {
    if width == 0 then [] else ToBytes(n / 256, width - 1) + [(n % 256) as byte]
  }

  /** int.from_bytes(bytes, "big"). */
  function FromBytes(b: Bytes): nat {
    if b == [] then 0 else FromBytes(b[..|b| - 1]) * 256 + b[|b| - 1] as nat
  }

  function Power256(width: nat): nat {
    if width == 0 then 1 else Power256(width - 1) * 256
  }

  lemma {:induction false} FromTo(n: nat, width: nat)
    requires n < Power256(width)
    ensures FromBytes(ToBytes(n, width)) == n
  {
    if width > 0 {
      FromTo(n / 256, width - 1);
      assert ToBytes(n, width)[..width - 1] == ToBytes(n / 256, width - 1);
    }
  }

  lemma {:induction false} ToFrom(b: Bytes)
    ensures ToBytes(FromBytes(b), |b|) == b
  {
    if b != [] {
      ToFrom(b[..|b| - 1]);
      var n := FromBytes(b);
      assert n / 256 == FromBytes(b[..|b| - 1]) && n % 256 == b[|b| - 1] as nat;
      assert b == b[..|b| - 1] + [b[|b| - 1]];
    }
  }

  /** The bytes of one frame: length of what follows, tag, payload. */
  function Framed(kind: Kind, payload: Bytes): (r: Bytes)
    ensures |r| == |payload| + 5
  {
    ToBytes(|payload| + 1, 4) + [Tag(kind)] + payload
  }

  /** frame(): refuses an over-long payload instead of truncating it. */
  function Frame(kind: Kind, payload: Bytes): Option<Bytes> {
    if |payload| <= Limit(kind) then Some(Framed(kind, payload)) else None
  }

  datatype Decoded = Incomplete | Bad(code: string) | Complete(payload: Bytes, rest: Bytes)

  /** What the supervisor's inner loop makes of the bytes collected so far. */
  function Decode(expected: Kind, incoming: Bytes): Decoded {
    if |incoming| < 4 then Incomplete
    else
      var size := FromBytes(incoming[..4]);
      if !(1 <= size <= Limit(expected) + 1) then Bad("ipc_frame_limit")
      else if |incoming| >= 5 && incoming[4] != Tag(expected) then Bad("unexpected_ipc_frame")
      else if |incoming| < size + 4 then Incomplete
      else Complete(incoming[5..size + 4], incoming[size + 4..])
  }

  /** Decoding succeeds exactly on a framed payload followed by anything. */
  lemma DecodeExact(kind: Kind, incoming: Bytes, payload: Bytes, rest: Bytes)
    ensures Decode(kind, incoming) == Complete(payload, rest)
       <==> |payload| <= Limit(kind) && incoming == Framed(kind, payload) + rest
  {
    if |payload| <= Limit(kind) && incoming == Framed(kind, payload) + rest {
      Header(|payload| + 1);
      assert incoming[..4] == ToBytes(|payload| + 1, 4);
      assert incoming[4] == Tag(kind);
      assert incoming[5..|payload| + 5] == payload;
      assert incoming[|payload| + 5..] == rest;
    }
    if Decode(kind, incoming) == Complete(payload, rest) {
      ToFrom(incoming[..4]);
      var size := FromBytes(incoming[..4]);
      assert incoming == incoming[..4] + [incoming[4]] + incoming[5..size + 4] + incoming[size + 4..];
      assert Framed(kind, payload) + rest == ToBytes(size, 4) + [Tag(kind)] + payload + rest;
    }
  }

  lemma Header(size: nat)
    requires size <= 20481
    ensures FromBytes(ToBytes(size, 4)) == size
  {
    assert Power256(4) == 256 * 256 * 256 * 256;
    FromTo(size, 4);
  }

  /** A truncated frame is never taken for a complete or a malformed one. */
  lemma PrefixIncomplete(kind: Kind, payload: Bytes, n: nat)
    requires |payload| <= Limit(kind) && n < |payload| + 5
    ensures Decode(kind, Framed(kind, payload)[..n]) == Incomplete
  {
    var f := Framed(kind, payload);
    if n >= 4 {
      Header(|payload| + 1);
      assert f[..n][..4] == f[..4] == ToBytes(|payload| + 1, 4);
      assert n >= 5 ==> f[..n][4] == Tag(kind);
    }
  }

  // ------------------------------------------------- the supervisor's state

  datatype Chunk = Blocked | Eof | Data(bytes: Bytes)
  datatype Written = WouldBlock | BrokenPipe | Wrote(count: nat)
  datatype Phase =
    | SendingInit | WaitingReady | WaitingRequest | Exchanging | SendingResponse | WaitingResult | WaitingEof

  /** The JSON checks the supervisor applies to READY and to each response. */
  datatype Codec = Codec(readyOk: Bytes -> bool, stop: Bytes -> Option<bool>)

  type Calls = seq<(Bytes, Bytes)>

  ghost predicate Fits(call: (Bytes, Bytes)) {
    |call.0| <= Limit(Request) && |call.1| <= Limit(Response)
  }

  /** Every exchange so far asked to go on. */
  ghost predicate Open(codec: Codec, calls: Calls) {
    calls == [] ||
    (Open(codec, calls[..|calls| - 1]) && Fits(calls[|calls| - 1]) && codec.stop(calls[|calls| - 1].1) == Some(false))
  }

  /** The last exchange, and no earlier one, ended the dialogue. */
  ghost predicate Ended(codec: Codec, calls: Calls) {
    calls != [] && Open(codec, calls[..|calls| - 1]) && Fits(calls[|calls| - 1])
    && codec.stop(calls[|calls| - 1].1) == Some(true)
  }

  ghost function RequestBytes(calls: Calls): Bytes {
    if calls == [] then [] else RequestBytes(calls[..|calls| - 1]) + Framed(Request, calls[|calls| - 1].0)
  }

  ghost function ResponseBytes(calls: Calls): Bytes {
    if calls == [] then [] else ResponseBytes(calls[..|calls| - 1]) + Framed(Response, calls[|calls| - 1].1)
  }

  lemma {:induction false} OpenAt(codec: Codec, calls: Calls, i: nat)
    requires Open(codec, calls) && i < |calls|
    ensures Fits(calls[i]) && codec.stop(calls[i].1) == Some(false)
  {
    if i < |calls| - 1 { OpenAt(codec, calls[..|calls| - 1], i); }
  }

  /** The whole dialogue, as bytes on both pipes and as callback runs. */
  ghost predicate ExactDialogue(codec: Codec, maxRequests: nat, stdin: Bytes, stdout: Bytes, calls: Calls,
                                init: Bytes, hello: Bytes, result: Bytes)
  {
    && |init| <= Limit(Init) && |hello| <= Limit(Ready) && |result| <= Limit(Final)
    && codec.readyOk(hello)
    && stdout == Framed(Ready, hello) + RequestBytes(calls) + Framed(Final, result)
    && stdin == Framed(Init, init) + ResponseBytes(calls)
    && 1 <= |calls| <= maxRequests
    && forall i :: 0 <= i < |calls| ==> Fits(calls[i]) && codec.stop(calls[i].1) == Some(i == |calls| - 1)
  }

  /** What the decoded part of stdout must have been. */
  ghost function Heard(phase: Phase, hello: Bytes, calls: Calls, request: Bytes, result: Option<Bytes>): Bytes {
    match phase
    case SendingInit => []
    case WaitingReady => []
    case Exchanging => Framed(Ready, hello) + RequestBytes(calls) + Framed(Request, request)
    case WaitingEof =>
      if result.Some? then Framed(Ready, hello) + RequestBytes(calls) + Framed(Final, result.value) else []
    case _ => Framed(Ready, hello) + RequestBytes(calls)
  }

  /** The frame being written, and the frames completely written before it. */
  ghost function Pending(phase: Phase, init: Bytes, calls: Calls): Bytes {
    match phase
    case SendingInit => Framed(Init, init)
    case SendingResponse => if calls == [] then [] else Framed(Response, calls[|calls| - 1].1)
    case _ => []
  }

  ghost function Sent(phase: Phase, init: Bytes, calls: Calls): Bytes {
    match phase
    case SendingInit => []
    case SendingResponse => if calls == [] then [] else Framed(Init, init) + ResponseBytes(calls[..|calls| - 1])
    case _ => Framed(Init, init) + ResponseBytes(calls)
  }

  ghost predicate Coherent(codec: Codec, init: Bytes, phase: Phase, hello: Bytes, calls: Calls, stopping: bool,
                           request: Bytes, result: Option<Bytes>)
  {
    && |init| <= Limit(Init)
    && (phase.SendingInit? || phase.WaitingReady? || (|hello| <= Limit(Ready) && codec.readyOk(hello)))
    && match phase
       case SendingInit => calls == []
       case WaitingReady => calls == []
       case WaitingRequest => Open(codec, calls)
       case Exchanging => Open(codec, calls) && |request| <= Limit(Request)
       case SendingResponse => calls != [] && if stopping then Ended(codec, calls) else Open(codec, calls)
       case WaitingResult => Ended(codec, calls)
       case WaitingEof => Ended(codec, calls) && result.Some? && |result.value| <= Limit(Final)
  }

  /** The local variables of one supervise() call. */
  datatype Dialogue = Dialogue(
    phase: Phase,
    incoming: Bytes,
    pending: Bytes,
    offset: nat,
    outputTotal: nat,
    stderrTotal: nat,
    requests: nat,
    request: Bytes,
    result: Option<Bytes>,
    stopping: bool,
    stdoutEof: bool,
    stderrEof: bool)

  function OutputLimit(maxRequests: nat): nat {
    maxRequests * 20485 + 1024 + 512 + 10 + MAX_STDERR_BYTES
  }

  /** The bytes on both pipes are the frames of the exchanges so far, plus what is still in flight. */
  ghost predicate Wire(d: Dialogue, init: Bytes, hello: Bytes, stdin: Bytes, stdout: Bytes, calls: Calls) {
    && d.offset <= |d.pending|
    && d.pending == Pending(d.phase, init, calls)
    && stdout == Heard(d.phase, hello, calls, d.request, d.result) + d.incoming
    && stdin == Sent(d.phase, init, calls) + d.pending[..d.offset]
  }

  ghost predicate Counted(d: Dialogue, maxRequests: nat, calls: Calls) {
    && d.requests == |calls| + (if d.phase.Exchanging? then 1 else 0)
    && d.requests <= maxRequests
    && (d.phase.WaitingRequest? || (d.phase.SendingResponse? && !d.stopping) ==> d.requests < maxRequests)
    && (d.phase.SendingInit? || d.phase.WaitingReady? ==> 0 < maxRequests)
    && d.outputTotal <= OutputLimit(maxRequests) && d.stderrTotal <= MAX_STDERR_BYTES
  }

  ghost predicate Sound(codec: Codec, init: Bytes, maxRequests: nat, d: Dialogue, hello: Bytes,
                        stdin: Bytes, stdout: Bytes, calls: Calls)
  {
    && Coherent(codec, init, d.phase, hello, calls, d.stopping, d.request, d.result)
    && Wire(d, init, hello, stdin, stdout, calls)
    && Counted(d, maxRequests, calls)
    && (d.phase.SendingInit? || d.phase.Exchanging? || d.phase.SendingResponse? || d.phase.WaitingEof? ==>
      d.incoming == [])
    && (d.stdoutEof ==> d.phase.WaitingEof?)
  }

  /** stdin took n more bytes of the pending frame. */
  function Advance(d: Dialogue, n: nat): Dialogue {
    if d.offset + n != |d.pending| then d.(offset := d.offset + n)
    else d.(pending := [], offset := 0,
            phase := if d.phase.SendingInit? then WaitingReady else if d.stopping then WaitingResult
              else WaitingRequest)
  }

  lemma Regroup(a: Bytes, b: Bytes, c: Bytes)
    ensures a + b + c == a + (b + c)
  {
  }

  /** Bytes of a partly written frame join up. */
  lemma WriteMore(stdin: Bytes, sent: Bytes, pending: Bytes, offset: nat, n: nat)
    requires offset + n <= |pending| && stdin == sent + pending[..offset]
    ensures stdin + pending[offset..offset + n] == sent + pending[..offset + n]
    ensures offset + n == |pending| ==> stdin + pending[offset..offset + n] == sent + pending + []
  {
    assert pending[..offset] + pending[offset..offset + n] == pending[..offset + n];
    Regroup(sent, pending[..offset], pending[offset..offset + n]);
    if offset + n == |pending| {
      assert pending[..offset + n] == pending;
      assert sent + pending + [] == sent + pending;
    }
  }

  /** Once its pending frame is out, a phase has sent exactly what its successor counts as sent. */
  lemma SentGrows(phase: Phase, next: Phase, init: Bytes, calls: Calls)
    requires (phase.SendingInit? && calls == []) || (phase.SendingResponse? && calls != [])
    requires next.WaitingReady? || next.WaitingRequest? || next.WaitingResult?
    ensures Sent(phase, init, calls) + Pending(phase, init, calls) == Sent(next, init, calls)
  {
    if phase.SendingInit? {
      assert Sent(next, init, calls) == Framed(Init, init) + [];
      assert Sent(phase, init, calls) == [];
    } else {
      Regroup(Framed(Init, init), ResponseBytes(calls[..|calls| - 1]), Framed(Response, calls[|calls| - 1].1));
    }
  }

  lemma AdvanceSound(codec: Codec, init: Bytes, maxRequests: nat, d: Dialogue, n: nat, hello: Bytes,
                     stdin: Bytes, stdout: Bytes, calls: Calls)
    requires Sound(codec, init, maxRequests, d, hello, stdin, stdout, calls)
    requires d.phase.SendingInit? || d.phase.SendingResponse?
    requires d.offset + n <= |d.pending|
    ensures Sound(codec, init, maxRequests, Advance(d, n), hello, stdin + d.pending[d.offset..d.offset + n], stdout,
      calls)
  {
    var sent := Sent(d.phase, init, calls);
    WriteMore(stdin, sent, d.pending, d.offset, n);
    if d.offset + n == |d.pending| {
      SentGrows(d.phase, Advance(d, n).phase, init, calls);
    }
  }

  /** One turn of the decoding loop over the bytes collected from stdout. */
  datatype Taken = Wait | Next(state: Dialogue) | Refuse(code: string)

  function Expected(phase: Phase): Kind
    requires phase.WaitingReady? || phase.WaitingRequest? || phase.WaitingResult?
  {
    if phase.WaitingReady? then Ready else if phase.WaitingRequest? then Request else Final
  }

  function TakeFrame(codec: Codec, maxRequests: nat, d: Dialogue): Taken
    requires d.phase.WaitingReady? || d.phase.WaitingRequest? || d.phase.WaitingResult?
  {
    match Decode(Expected(d.phase), d.incoming)
    case Incomplete => Wait
    case Bad(code) => Refuse(code)
    case Complete(payload, rest) =>
      if d.phase.WaitingReady? then
        if codec.readyOk(payload) then Next(d.(incoming := rest, phase := WaitingRequest))
        else Refuse("unverified_coordinator_boundary")
      else if rest != [] then Refuse("extra_ipc_output")
      else if d.phase.WaitingResult? then Next(d.(incoming := [], result := Some(payload), phase := WaitingEof))
      else if d.requests + 1 > maxRequests then Refuse("ipc_request_limit")
      else Next(d.(incoming := [], requests := d.requests + 1, request := payload, phase := Exchanging))
  }

  /** The READY payload once it has been taken. */
  ghost function HelloAfter(d: Dialogue, hello: Bytes): Bytes
  {
    if d.phase.WaitingReady? && Decode(Ready, d.incoming).Complete? then Decode(Ready, d.incoming).payload else hello
  }

  lemma TakeSound(codec: Codec, init: Bytes, maxRequests: nat, d: Dialogue, hello: Bytes,
                  stdin: Bytes, stdout: Bytes, calls: Calls)
    requires Sound(codec, init, maxRequests, d, hello, stdin, stdout, calls)
    requires d.phase.WaitingReady? || d.phase.WaitingRequest? || d.phase.WaitingResult?
    requires TakeFrame(codec, maxRequests, d).Next?
    ensures Sound(codec, init, maxRequests, TakeFrame(codec, maxRequests, d).state, HelloAfter(d, hello), stdin,
      stdout, calls)
  {
    var e := TakeFrame(codec, maxRequests, d).state;
    var kind := Expected(d.phase);
    var c := Decode(kind, d.incoming);
    DecodeExact(kind, d.incoming, c.payload, c.rest);
    var heard := Heard(d.phase, hello, calls, d.request, d.result);
    Regroup(heard, Framed(kind, c.payload), c.rest);
    if kind == Ready {
      HeardReady(heard, Framed(Ready, c.payload), RequestBytes(calls));
    }
  }

  lemma HeardReady(heard: Bytes, framed: Bytes, requests: Bytes)
    requires heard == [] && requests == []
    ensures heard + framed == framed + requests
  {
  }

  /** The callback's answer becomes the pending frame. */
  function Answer(d: Dialogue, response: Bytes, last: bool): Dialogue {
    d.(pending := Framed(Response, response), offset := 0, stopping := last, request := [], phase := SendingResponse)
  }

  lemma AnswerSound(codec: Codec, init: Bytes, maxRequests: nat, d: Dialogue, response: Bytes, last: bool, hello: Bytes,
                    stdin: Bytes, stdout: Bytes, calls: Calls)
    requires Sound(codec, init, maxRequests, d, hello, stdin, stdout, calls) && d.phase.Exchanging?
    requires |response| <= Limit(Response) && codec.stop(response) == Some(last)
    requires d.requests < maxRequests || last
    ensures Sound(codec, init, maxRequests, Answer(d, response, last), hello, stdin, stdout,
      calls + [(d.request, response)])
  {
    var more := calls + [(d.request, response)];
    assert more[..|more| - 1] == calls;
    Regroup(Framed(Ready, hello), RequestBytes(calls), Framed(Request, d.request));
    Empty(Sent(d.phase, init, calls), d.pending[..d.offset], Answer(d, response, last).pending[..0]);
  }

  lemma Empty(a: Bytes, b: Bytes, c: Bytes)
    requires b == [] && c == []
    ensures a + b == a + c == a
  {
  }

  lemma MoreOutput(heard: Bytes, incoming: Bytes, data: Bytes, stdout: Bytes)
    requires stdout == heard + incoming
    ensures stdout + data == heard + (incoming + data)
  {
  }

  function Start(init: Bytes): Dialogue {
    Dialogue(SendingInit, [], Framed(Init, init), 0, 0, 0, 0, [], None, false, false, false)
  }

  lemma Finished(codec: Codec, init: Bytes, maxRequests: nat, d: Dialogue, hello: Bytes, stdin: Bytes, stdout: Bytes,
                 calls: Calls)
    requires Sound(codec, init, maxRequests, d, hello, stdin, stdout, calls) && d.phase.WaitingEof?
    ensures d.result.Some? && ExactDialogue(codec, maxRequests, stdin, stdout, calls, init, hello, d.result.value)
  {
    Empty(Heard(d.phase, hello, calls, d.request, d.result), d.incoming, []);
    Empty(Sent(d.phase, init, calls), d.pending[..d.offset], []);
    forall i | 0 <= i < |calls|
      ensures Fits(calls[i]) && codec.stop(calls[i].1) == Some(i == |calls| - 1)
    {
      if i < |calls| - 1 { OpenAt(codec, calls[..|calls| - 1], i); }
    }
  }

  lemma StartSound(codec: Codec, init: Bytes, maxRequests: nat)
    requires |init| <= Limit(Init) && maxRequests > 0
    ensures Sound(codec, init, maxRequests, Start(init), [], [], [], [])
  {
  }

  /** The limit check made when a request arrives never fires: the check made when the previous
      response was queued has already bounded the dialogue. */
  lemma ArrivalLimitUnreachable(codec: Codec, init: Bytes, maxRequests: nat, d: Dialogue, hello: Bytes,
                                stdin: Bytes, stdout: Bytes, calls: Calls)
    requires Sound(codec, init, maxRequests, d, hello, stdin, stdout, calls)
    requires d.phase.WaitingReady? || d.phase.WaitingRequest? || d.phase.WaitingResult?
    ensures TakeFrame(codec, maxRequests, d) != Refuse("ipc_request_limit")
  {
    var code := "ipc_request_limit";
    assert code[4] == 'r';
    assert "ipc_frame_limit"[4] == 'f' && "unexpected_ipc_frame"[0] == 'u' && "extra_ipc_output"[0] == 'e';
    assert "unverified_coordinator_boundary"[0] == 'u';
  }

  // -------------------------------------------------- one reading per byte stream

  lemma {:induction false} RequestBytesFront(calls: Calls)
    requires calls != []
    ensures RequestBytes(calls) == Framed(Request, calls[0].0) + RequestBytes(calls[1..])
  {
    var n := |calls| - 1;
    if n == 0 {
      Empty(Framed(Request, calls[0].0), [], RequestBytes(calls[1..]));
      assert RequestBytes(calls[..0]) == [];
      Prefixed(Framed(Request, calls[0].0));
    } else {
      RequestBytesFront(calls[..n]);
      assert calls[..n][1..] == calls[1..][..n - 1];
      assert calls[1..][n - 1] == calls[n];
      Regroup(Framed(Request, calls[0].0), RequestBytes(calls[1..][..n - 1]), Framed(Request, calls[n].0));
    }
  }

  lemma Prefixed(a: Bytes)
    ensures [] + a == a
  {
  }

  /** Two dialogues that put the same bytes on stdout asked the same requests and gave the same result. */
  lemma {:induction false} OneReading(calls: Calls, calls': Calls, result: Bytes, result': Bytes)
    requires forall i :: 0 <= i < |calls| ==> Fits(calls[i])
    requires forall i :: 0 <= i < |calls'| ==> Fits(calls'[i])
    requires |result| <= Limit(Final) && |result'| <= Limit(Final)
    requires RequestBytes(calls) + Framed(Final, result) == RequestBytes(calls') + Framed(Final, result')
    ensures |calls| == |calls'| && result == result'
    ensures forall i :: 0 <= i < |calls| ==> calls[i].0 == calls'[i].0
  {
    var all := RequestBytes(calls) + Framed(Final, result);
    if calls == [] || calls' == [] {
      OneReadingEnd(calls, calls', result, result');
    } else {
      RequestBytesFront(calls);
      RequestBytesFront(calls');
      var rest := RequestBytes(calls[1..]) + Framed(Final, result);
      var rest' := RequestBytes(calls'[1..]) + Framed(Final, result');
      Regroup(Framed(Request, calls[0].0), RequestBytes(calls[1..]), Framed(Final, result));
      Regroup(Framed(Request, calls'[0].0), RequestBytes(calls'[1..]), Framed(Final, result'));
      assert Fits(calls[0]) && Fits(calls'[0]);
      DecodeExact(Request, all, calls[0].0, rest);
      DecodeExact(Request, all, calls'[0].0, rest');
      OneReading(calls[1..], calls'[1..], result, result');
      forall i | 0 <= i < |calls| ensures calls[i].0 == calls'[i].0 {
        if i > 0 { assert calls[1..][i - 1].0 == calls'[1..][i - 1].0; }
      }
    }
  }

  lemma OneReadingEnd(calls: Calls, calls': Calls, result: Bytes, result': Bytes)
    requires forall i :: 0 <= i < |calls| ==> Fits(calls[i])
    requires forall i :: 0 <= i < |calls'| ==> Fits(calls'[i])
    requires |result| <= Limit(Final) && |result'| <= Limit(Final)
    requires RequestBytes(calls) + Framed(Final, result) == RequestBytes(calls') + Framed(Final, result')
    requires calls == [] || calls' == []
    ensures calls == [] && calls' == [] && result == result'
  {
    if calls != [] {
      RequestBytesFront(calls);
      NotFinal(calls[0].0, RequestBytes(calls[1..]), Framed(Final, result), result');
    } else if calls' != [] {
      RequestBytesFront(calls');
      NotFinal(calls'[0].0, RequestBytes(calls'[1..]), Framed(Final, result'), result);
    } else {
      Prefixed(Framed(Final, result));
      Prefixed(Framed(Final, result'));
      Empty(Framed(Final, result), [], []);
      DecodeExact(Final, Framed(Final, result) + [], result, []);
      DecodeExact(Final, Framed(Final, result') + [], result', []);
      Empty(Framed(Final, result'), [], []);
    }
  }

  /** A stream that starts with a REQUEST frame is not one RESULT frame. */
  lemma NotFinal(request: Bytes, more: Bytes, end: Bytes, result: Bytes)
    ensures Framed(Request, request) + more + end != [] + Framed(Final, result)
  {
    assert (Framed(Request, request) + more + end)[4] == Tag(Request);
    assert ([] + Framed(Final, result))[4] == Tag(Final);
  }

  // ----------------------------------------------------- blocking reader (child side)
}
