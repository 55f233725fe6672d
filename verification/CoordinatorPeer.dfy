/** An honest coordinator as its supervisor sees it: what it says, given what it has been told
    (recon_cockpit/secure_agent/coordinator_worker.py), and why no check of the supervisor can fail on it. */
module CoordinatorPeer {
  import opened Prelude
  import opened CoordinatorFrames

  /** A coordinator program: its READY payload, the request it sends after reading these answers, the answers after
      which it waits for the end of its input, and the RESULT it then sends. */
  datatype Script = Script(hello: Bytes, ask: seq<Bytes> -> Bytes, stops: Bytes -> bool, result: Bytes)

  /** What has been said, and whether it was all there is to say. */
  datatype Speech = Speech(text: Bytes, over: bool)

  /** Everything the program says after INIT and `answers`, with `rest` still to read. */
  ghost function Talk(script: Script, answers: seq<Bytes>, rest: Bytes): Speech
    decreases |rest|
  {
    var asked := Framed(Request, script.ask(answers));
    match Decode(Response, rest)
    case Complete(p, left) =>
      if script.stops(p) then
        if left == [] then Speech(asked + Framed(Final, script.result), true) else Speech(asked, false)
      else
        Shorter(Response, rest);
        var more := Talk(script, answers + [p], left);
        Speech(asked + more.text, more.over)
    case _ => Speech(asked, false)
  }

  lemma Shorter(kind: Kind, incoming: Bytes)
    ensures Decode(kind, incoming).Complete? ==> |Decode(kind, incoming).rest| < |incoming|
  {
  }

  /** Everything the program says once it has been given these bytes. */
  ghost function Spoken(script: Script, stdin: Bytes): Speech {
    match Decode(Init, stdin)
    case Complete(_, rest) =>
      var talk := Talk(script, [], rest);
      Speech(Framed(Ready, script.hello) + talk.text, talk.over)
    case _ => Speech([], false)
  }

  function Given(calls: Calls): seq<Bytes> {
    seq(|calls|, i requires 0 <= i < |calls| => calls[i].1)
  }

  /** The requests of these exchanges are the ones the program asks. */
  ghost predicate FollowsFrom(script: Script, before: seq<Bytes>, calls: Calls) {
    forall i :: 0 <= i < |calls| ==> calls[i].0 == script.ask(before + Given(calls[..i]))
  }

  ghost predicate Follows(script: Script, calls: Calls) {
    forall i :: 0 <= i < |calls| ==> calls[i].0 == script.ask(Given(calls[..i]))
  }

  /** An answer the program and its supervisor both understand. */
  ghost predicate Fitting(script: Script, codec: Codec, maxRequests: nat, calls: Calls, i: nat)
    requires i < |calls|
  {
    |calls[i].1| <= Limit(Response) && codec.stop(calls[i].1) == Some(script.stops(calls[i].1))
    && (i + 1 == maxRequests ==> script.stops(calls[i].1))
  }

  /** The program's own frames fit, its READY payload is accepted, and every answer given so far was fitting. */
  ghost predicate Suited(script: Script, codec: Codec, maxRequests: nat, calls: Calls) {
    && |script.hello| <= Limit(Ready) && codec.readyOk(script.hello) && |script.result| <= Limit(Final)
    && (forall i :: 0 <= i < |calls| ==> Fitting(script, codec, maxRequests, calls, i))
    && (forall i :: 0 <= i <= |calls| ==> |script.ask(Given(calls[..i]))| <= Limit(Request))
  }

  lemma SuitedBefore(script: Script, codec: Codec, maxRequests: nat, calls: Calls, call: (Bytes, Bytes))
    requires Suited(script, codec, maxRequests, calls + [call])
    ensures Suited(script, codec, maxRequests, calls)
    ensures Fitting(script, codec, maxRequests, calls + [call], |calls|)
  {
    var more := calls + [call];
    forall i | 0 <= i < |calls| ensures Fitting(script, codec, maxRequests, calls, i) {
      assert Fitting(script, codec, maxRequests, more, i) && more[i] == calls[i];
    }
    forall i | 0 <= i <= |calls| ensures |script.ask(Given(calls[..i]))| <= Limit(Request) {
      assert more[..i] == calls[..i];
    }
  }

  // ------------------------------------------------------------ what it has said

  lemma GivenFront(calls: Calls, i: nat)
    requires calls != [] && i <= |calls| - 1
    ensures Given(calls[..i + 1]) == [calls[0].1] + Given(calls[1..][..i])
  {
    assert forall j :: 0 <= j < i ==> calls[1..][..i][j] == calls[..i + 1][j + 1];
  }

  lemma FollowsFront(script: Script, before: seq<Bytes>, calls: Calls)
    requires calls != [] && FollowsFrom(script, before, calls)
    ensures calls[0].0 == script.ask(before) && FollowsFrom(script, before + [calls[0].1], calls[1..])
  {
    assert calls[0].0 == script.ask(before + Given(calls[..0])) && before + Given(calls[..0]) == before;
    var rest := calls[1..];
    forall i | 0 <= i < |rest| ensures rest[i].0 == script.ask(before + [calls[0].1] + Given(rest[..i])) {
      GivenFront(calls, i);
      assert rest[i] == calls[i + 1];
      assert before + Given(calls[..i + 1]) == before + [calls[0].1] + Given(rest[..i]);
    }
  }

  lemma {:induction false} ResponseBytesFront(calls: Calls)
    requires calls != []
    ensures ResponseBytes(calls) == Framed(Response, calls[0].1) + ResponseBytes(calls[1..])
  {
    var n := |calls| - 1;
    if n == 0 {
      Prefixed(Framed(Response, calls[0].1));
      Empty(Framed(Response, calls[0].1), ResponseBytes(calls[1..]), []);
      assert ResponseBytes(calls[..0]) == [];
    } else {
      ResponseBytesFront(calls[..n]);
      assert calls[..n][1..] == calls[1..][..n - 1];
      assert calls[1..][n - 1] == calls[n];
      Regroup(Framed(Response, calls[0].1), ResponseBytes(calls[1..][..n - 1]), Framed(Response, calls[n].1));
    }
  }

  /** One answered request of the talk. */
  lemma TalkStep(script: Script, before: seq<Bytes>, answer: Bytes, rest: Bytes)
    requires |answer| <= Limit(Response) && !script.stops(answer)
    ensures var more := Talk(script, before + [answer], rest);
      Talk(script, before, Framed(Response, answer) + rest) ==
        Speech(Framed(Request, script.ask(before)) + more.text, more.over)
  {
    DecodeExact(Response, Framed(Response, answer) + rest, answer, rest);
  }

  lemma TalkStops(script: Script, before: seq<Bytes>, answer: Bytes)
    requires |answer| <= Limit(Response) && script.stops(answer)
    ensures Talk(script, before, Framed(Response, answer) + []) ==
      Speech(Framed(Request, script.ask(before)) + Framed(Final, script.result), true)
  {
    DecodeExact(Response, Framed(Response, answer) + [], answer, []);
  }

  ghost predicate GoesOn(script: Script, calls: Calls) {
    forall i :: 0 <= i < |calls| ==> |calls[i].1| <= Limit(Response) && !script.stops(calls[i].1)
  }

  /** After answers that all go on, and part of the next one, the program has asked one request more. */
  lemma {:induction false} TalkAt(script: Script, before: seq<Bytes>, calls: Calls, part: Bytes)
    requires GoesOn(script, calls) && FollowsFrom(script, before, calls) && Decode(Response, part) == Incomplete
    ensures Talk(script, before, ResponseBytes(calls) + part) ==
      Speech(RequestBytes(calls) + Framed(Request, script.ask(before + Given(calls))), false)
    decreases |calls|
  {
    if calls == [] {
      Prefixed(part);
      Prefixed(Framed(Request, script.ask(before)));
      assert before + Given(calls) == before;
    } else {
      var rest := calls[1..];
      FollowsFront(script, before, calls);
      ResponseBytesFront(calls);
      RequestBytesFront(calls);
      forall i | 0 <= i < |rest| ensures rest[i] == calls[i + 1] {}
      TalkAt(script, before + [calls[0].1], rest, part);
      Regroup(Framed(Response, calls[0].1), ResponseBytes(rest), part);
      TalkStep(script, before, calls[0].1, ResponseBytes(rest) + part);
      GivenFront(calls, |rest|);
      assert calls[..|calls|] == calls && rest[..|rest|] == rest;
      assert before + Given(calls) == before + [calls[0].1] + Given(rest);
      Regroup(Framed(Request, calls[0].0), RequestBytes(rest), Framed(Request, script.ask(before + Given(calls))));
    }
  }

  /** After the answer that stops, the program has said everything. */
  lemma {:induction false} TalkEnds(script: Script, before: seq<Bytes>, calls: Calls)
    requires calls != [] && GoesOn(script, calls[..|calls| - 1]) && FollowsFrom(script, before, calls)
    requires |calls[|calls| - 1].1| <= Limit(Response) && script.stops(calls[|calls| - 1].1)
    ensures Talk(script, before, ResponseBytes(calls)) ==
      Speech(RequestBytes(calls) + Framed(Final, script.result), true)
    decreases |calls|
  {
    var rest := calls[1..];
    FollowsFront(script, before, calls);
    ResponseBytesFront(calls);
    RequestBytesFront(calls);
    if rest == [] {
      TalkStops(script, before, calls[0].1);
      Empty(Framed(Request, calls[0].0), RequestBytes(rest), []);
    } else {
      assert rest[..|rest| - 1] == calls[..|calls| - 1][1..];
      TalkEnds(script, before + [calls[0].1], rest);
      assert calls[..|calls| - 1][0] == calls[0];
      TalkStep(script, before, calls[0].1, ResponseBytes(rest));
      Regroup(Framed(Request, calls[0].0), RequestBytes(rest), Framed(Final, script.result));
    }
  }

  // ------------------------------------------------------- beside the supervisor

  predicate Waiting(phase: Phase) {
    phase.WaitingReady? || phase.WaitingRequest? || phase.WaitingResult?
  }

  predicate Sending(phase: Phase) {
    phase.SendingInit? || phase.SendingResponse?
  }

  /** The supervisor has heard nothing but the program, and no complete frame of it is left undecoded. */
  ghost predicate Following(script: Script, d: Dialogue, hello: Bytes, stdin: Bytes, stdout: Bytes, calls: Calls) {
    && stdout <= Spoken(script, stdin).text && Follows(script, calls)
    && (d.phase.SendingInit? || d.phase.WaitingReady? || hello == script.hello)
    && (d.phase.Exchanging? ==> d.request == script.ask(Given(calls)))
    && (d.phase.WaitingEof? ==> d.result == Some(script.result))
    && (Sending(d.phase) ==> d.offset < |d.pending|)
    && d.outputTotal == |stdout| + d.stderrTotal
  }

  ghost predicate Drained(d: Dialogue) {
    Waiting(d.phase) ==> Decode(Expected(d.phase), d.incoming) == Incomplete
  }

  /** What the program says until it needs another answer. */
  ghost function Asked(script: Script, calls: Calls): Speech {
    Speech(Framed(Ready, script.hello) + (RequestBytes(calls) + Framed(Request, script.ask(Given(calls)))), false)
  }

  ghost function Due(script: Script, phase: Phase, calls: Calls): Speech {
    match phase
    case SendingInit => Speech([], false)
    case SendingResponse => if calls == [] then Speech([], false) else Asked(script, calls[..|calls| - 1])
    case WaitingResult => Closed(script, calls)
    case WaitingEof => Closed(script, calls)
    case _ => Asked(script, calls)
  }

  ghost function Closed(script: Script, calls: Calls): Speech {
    Speech(Framed(Ready, script.hello) + (RequestBytes(calls) + Framed(Final, script.result)), true)
  }

  lemma OpenGoesOn(script: Script, codec: Codec, maxRequests: nat, calls: Calls)
    requires Open(codec, calls) && Suited(script, codec, maxRequests, calls)
    ensures GoesOn(script, calls)
  {
    forall i | 0 <= i < |calls| ensures |calls[i].1| <= Limit(Response) && !script.stops(calls[i].1) {
      OpenAt(codec, calls, i);
      assert Fitting(script, codec, maxRequests, calls, i);
    }
  }

  lemma FollowsIsFrom(script: Script, calls: Calls)
    requires Follows(script, calls)
    ensures FollowsFrom(script, [], calls)
  {
    forall i | 0 <= i < |calls| ensures calls[i].0 == script.ask([] + Given(calls[..i])) {
      assert [] + Given(calls[..i]) == Given(calls[..i]);
    }
  }

  lemma Greeted(script: Script, init: Bytes, rest: Bytes)
    requires |init| <= Limit(Init)
    ensures Spoken(script, Framed(Init, init) + rest) ==
      Speech(Framed(Ready, script.hello) + Talk(script, [], rest).text, Talk(script, [], rest).over)
  {
    DecodeExact(Init, Framed(Init, init) + rest, init, rest);
  }

  /** After complete answers that go on, and part of another. */
  lemma SpokenOpen(script: Script, codec: Codec, maxRequests: nat, init: Bytes, calls: Calls, part: Bytes)
    requires |init| <= Limit(Init) && Open(codec, calls) && Suited(script, codec, maxRequests, calls)
    requires Follows(script, calls) && Decode(Response, part) == Incomplete
    ensures Spoken(script, Framed(Init, init) + ResponseBytes(calls) + part) == Asked(script, calls)
  {
    OpenGoesOn(script, codec, maxRequests, calls);
    FollowsIsFrom(script, calls);
    TalkAt(script, [], calls, part);
    Regroup(Framed(Init, init), ResponseBytes(calls), part);
    Greeted(script, init, ResponseBytes(calls) + part);
    assert [] + Given(calls) == Given(calls);
  }

  lemma SpokenEnded(script: Script, codec: Codec, maxRequests: nat, init: Bytes, calls: Calls)
    requires |init| <= Limit(Init) && Ended(codec, calls) && Suited(script, codec, maxRequests, calls)
    requires Follows(script, calls)
    ensures Spoken(script, Framed(Init, init) + ResponseBytes(calls)) == Closed(script, calls)
  {
    var n := |calls| - 1;
    assert Fitting(script, codec, maxRequests, calls, n);
    assert GoesOn(script, calls[..n]) by {
      forall i | 0 <= i < n ensures |calls[..n][i].1| <= Limit(Response) && !script.stops(calls[..n][i].1) {
        OpenAt(codec, calls[..n], i);
        assert Fitting(script, codec, maxRequests, calls, i) && calls[..n][i] == calls[i];
      }
    }
    FollowsIsFrom(script, calls);
    TalkEnds(script, [], calls);
    Greeted(script, init, ResponseBytes(calls));
  }

  lemma SuitedPrefix(script: Script, codec: Codec, maxRequests: nat, calls: Calls)
    requires calls != [] && Suited(script, codec, maxRequests, calls) && Follows(script, calls)
    ensures Suited(script, codec, maxRequests, calls[..|calls| - 1]) && Follows(script, calls[..|calls| - 1])
  {
    var n := |calls| - 1;
    assert calls == calls[..n] + [calls[n]];
    SuitedBefore(script, codec, maxRequests, calls[..n], calls[n]);
    forall i | 0 <= i < n ensures calls[..n][i].0 == script.ask(Given(calls[..n][..i])) {
      assert calls[..n][..i] == calls[..i] && calls[..n][i] == calls[i];
    }
  }

  /** In every state of the supervisor, what the program says of the bytes it was given. */
  lemma SpokenAt(script: Script, codec: Codec, init: Bytes, maxRequests: nat, d: Dialogue, hello: Bytes,
                 stdin: Bytes, stdout: Bytes, calls: Calls)
    requires Sound(codec, init, maxRequests, d, hello, stdin, stdout, calls)
    requires Suited(script, codec, maxRequests, calls) && Follows(script, calls)
    requires Sending(d.phase) ==> d.offset < |d.pending|
    ensures Spoken(script, stdin) == Due(script, d.phase, calls)
  {
    if d.phase.SendingInit? {
      PrefixIncomplete(Init, init, d.offset);
      Prefixed(d.pending[..d.offset]);
    } else if d.phase.SendingResponse? {
      var n := |calls| - 1;
      SuitedPrefix(script, codec, maxRequests, calls);
      assert Fitting(script, codec, maxRequests, calls, n);
      PrefixIncomplete(Response, calls[n].1, d.offset);
      SpokenOpen(script, codec, maxRequests, init, calls[..n], d.pending[..d.offset]);
    } else {
      Empty(Framed(Init, init) + ResponseBytes(calls), d.pending[..d.offset], []);
      if d.phase.WaitingResult? || d.phase.WaitingEof? {
        SpokenEnded(script, codec, maxRequests, init, calls);
      } else {
        SpokenOpen(script, codec, maxRequests, init, calls, []);
      }
    }
  }

  // --------------------------------------------------------- no check can fail

  lemma Suffix(a: Bytes, b: Bytes, c: Bytes)
    requires a + b <= a + c
    ensures b <= c
  {
    assert forall i :: 0 <= i < |b| ==> b[i] == (a + b)[|a| + i] && c[i] == (a + c)[|a| + i];
  }

  /** While the supervisor is not waiting for a frame, the program has nothing left to say. */
  lemma NothingMore(script: Script, codec: Codec, init: Bytes, maxRequests: nat, d: Dialogue, hello: Bytes,
                    stdin: Bytes, stdout: Bytes, calls: Calls)
    requires Sound(codec, init, maxRequests, d, hello, stdin, stdout, calls) && !Waiting(d.phase)
    requires Suited(script, codec, maxRequests, calls) && Following(script, d, hello, stdin, stdout, calls)
    ensures Spoken(script, stdin).text == stdout && (Spoken(script, stdin).over <==> d.phase.WaitingEof?)
  {
    SpokenAt(script, codec, init, maxRequests, d, hello, stdin, stdout, calls);
    Empty(Heard(d.phase, hello, calls, d.request, d.result), d.incoming, []);
    if d.phase.Exchanging? {
      Regroup(Framed(Ready, hello), RequestBytes(calls), Framed(Request, d.request));
    } else if d.phase.SendingResponse? {
      var n := |calls| - 1;
      assert calls[n].0 == script.ask(Given(calls[..n]));
    } else if d.phase.WaitingEof? {
      Regroup(Framed(Ready, hello), RequestBytes(calls), Framed(Final, script.result));
    }
  }

  /** The frame the supervisor waits for, and what may follow it. */
  ghost function Awaited(script: Script, phase: Phase, calls: Calls): (Bytes, Bytes) {
    if phase.WaitingReady? then (script.hello, Framed(Request, script.ask(Given(calls))))
    else if phase.WaitingResult? then (script.result, [])
    else (script.ask(Given(calls)), [])
  }

  /** Whatever has been read and not yet decoded is the beginning of the awaited frame, or that frame and the
      beginning of the next one. */
  lemma Undecoded(script: Script, codec: Codec, init: Bytes, maxRequests: nat, d: Dialogue, hello: Bytes,
                  stdin: Bytes, stdout: Bytes, calls: Calls)
    requires Sound(codec, init, maxRequests, d, hello, stdin, stdout, calls) && Waiting(d.phase)
    requires Suited(script, codec, maxRequests, calls) && Following(script, d, hello, stdin, stdout, calls)
    ensures var (payload, more) := Awaited(script, d.phase, calls);
      d.incoming <= Framed(Expected(d.phase), payload) + more && |payload| <= Limit(Expected(d.phase))
  {
    var (payload, more) := Awaited(script, d.phase, calls);
    var heard := Heard(d.phase, hello, calls, d.request, d.result);
    SpokenAt(script, codec, init, maxRequests, d, hello, stdin, stdout, calls);
    assert calls[..|calls|] == calls;
    if d.phase.WaitingReady? {
      Prefixed(d.incoming);
      Prefixed(more);
    } else {
      Empty(Framed(Expected(d.phase), payload), more, []);
      Regroup(Framed(Ready, hello), RequestBytes(calls), Framed(Expected(d.phase), payload));
      Suffix(heard, d.incoming, Framed(Expected(d.phase), payload));
    }
  }

  /** Part of a frame is incomplete; a whole one is decoded. */
  lemma BeginningDecodes(kind: Kind, payload: Bytes, more: Bytes, incoming: Bytes)
    requires |payload| <= Limit(kind) && incoming <= Framed(kind, payload) + more
    ensures Decode(kind, incoming) == Incomplete
      || (Decode(kind, incoming).Complete? && Decode(kind, incoming).payload == payload
          && Decode(kind, incoming).rest <= more)
  {
    var f := Framed(kind, payload);
    if |incoming| < |f| {
      PrefixIncomplete(kind, payload, |incoming|);
      assert incoming == f[..|incoming|];
    } else {
      var rest := incoming[|f|..];
      assert incoming == f + rest;
      DecodeExact(kind, incoming, payload, rest);
      Suffix(f, rest, more);
    }
  }

  /** The decoding loop never refuses what an honest program has said, and keeps following it. */
  lemma TakeFollows(script: Script, codec: Codec, init: Bytes, maxRequests: nat, d: Dialogue, hello: Bytes,
                    stdin: Bytes, stdout: Bytes, calls: Calls)
    requires Sound(codec, init, maxRequests, d, hello, stdin, stdout, calls) && Waiting(d.phase)
    requires Suited(script, codec, maxRequests, calls) && Following(script, d, hello, stdin, stdout, calls)
    ensures var taken := TakeFrame(codec, maxRequests, d);
      && !taken.Refuse?
      && (taken.Wait? ==> Drained(d))
      && (taken.Next? ==> Following(script, taken.state, HelloAfter(d, hello), stdin, stdout, calls))
  {
    var (payload, more) := Awaited(script, d.phase, calls);
    Undecoded(script, codec, init, maxRequests, d, hello, stdin, stdout, calls);
    BeginningDecodes(Expected(d.phase), payload, more, d.incoming);
  }

  lemma {:induction false} RequestsFit(script: Script, codec: Codec, maxRequests: nat, calls: Calls)
    requires Suited(script, codec, maxRequests, calls) && Follows(script, calls)
    ensures |RequestBytes(calls)| <= |calls| * 20485
  {
    if calls != [] {
      var n := |calls| - 1;
      SuitedPrefix(script, codec, maxRequests, calls);
      RequestsFit(script, codec, maxRequests, calls[..n]);
      assert calls[n].0 == script.ask(Given(calls[..n]));
    }
  }

  /** All an honest program ever says leaves room for its diagnostics within the supervisor's output limit. */
  lemma SpeechFits(script: Script, codec: Codec, init: Bytes, maxRequests: nat, d: Dialogue, hello: Bytes,
                   stdin: Bytes, stdout: Bytes, calls: Calls)
    requires Sound(codec, init, maxRequests, d, hello, stdin, stdout, calls)
    requires Suited(script, codec, maxRequests, calls) && Following(script, d, hello, stdin, stdout, calls)
    ensures |Spoken(script, stdin).text| + MAX_STDERR_BYTES <= OutputLimit(maxRequests)
  {
    SpokenAt(script, codec, init, maxRequests, d, hello, stdin, stdout, calls);
    RequestsFit(script, codec, maxRequests, calls);
    assert calls[..|calls|] == calls;
    if d.phase.SendingResponse? {
      var n := |calls| - 1;
      assert calls[n].0 == script.ask(Given(calls[..n]));
    }
  }

  /** Its RESULT is out once it has nothing more to say: the end of its output can only come then. */
  lemma EndsAfterResult(script: Script, codec: Codec, init: Bytes, maxRequests: nat, d: Dialogue, hello: Bytes,
                        stdin: Bytes, stdout: Bytes, calls: Calls)
    requires Sound(codec, init, maxRequests, d, hello, stdin, stdout, calls) && Drained(d)
    requires Suited(script, codec, maxRequests, calls) && Following(script, d, hello, stdin, stdout, calls)
    requires Spoken(script, stdin) == Speech(stdout, true)
    ensures d.phase.WaitingEof?
  {
    if !Waiting(d.phase) {
      NothingMore(script, codec, init, maxRequests, d, hello, stdin, stdout, calls);
    } else {
      SpokenAt(script, codec, init, maxRequests, d, hello, stdin, stdout, calls);
      var heard := Heard(d.phase, hello, calls, d.request, d.result);
      var last := Framed(Final, script.result);
      Regroup(Framed(Ready, hello), RequestBytes(calls), last);
      Suffix(heard, last, d.incoming);
      Suffix(heard, d.incoming, last);
      assert d.incoming == last;
      Empty(last, [], []);
      DecodeExact(Final, d.incoming, script.result, []);
    }
  }

  /** More of the pending frame is out. */
  lemma AdvanceFollows(script: Script, codec: Codec, init: Bytes, maxRequests: nat, d: Dialogue, n: nat, hello: Bytes,
                       stdin: Bytes, stdin': Bytes, stdout: Bytes, calls: Calls)
    requires Sound(codec, init, maxRequests, d, hello, stdin, stdout, calls) && Sending(d.phase)
    requires d.offset + n <= |d.pending| && Sound(codec, init, maxRequests, Advance(d, n), hello, stdin', stdout, calls)
    requires Suited(script, codec, maxRequests, calls) && Following(script, d, hello, stdin, stdout, calls)
    ensures Following(script, Advance(d, n), hello, stdin', stdout, calls) && Drained(Advance(d, n))
  {
    var e := Advance(d, n);
    NothingMore(script, codec, init, maxRequests, d, hello, stdin, stdout, calls);
    SpokenAt(script, codec, init, maxRequests, d, hello, stdin, stdout, calls);
    SpokenAt(script, codec, init, maxRequests, e, hello, stdin', stdout, calls);
    Empty(Heard(e.phase, hello, calls, e.request, e.result), e.incoming, []);
    if e.phase.WaitingRequest? || e.phase.WaitingResult? {
      var payload := Awaited(script, e.phase, calls).0;
      Regroup(Framed(Ready, hello), RequestBytes(calls), Framed(Expected(e.phase), payload));
    }
  }

  /** The answer is on its way. */
  lemma AnswerFollows(script: Script, codec: Codec, maxRequests: nat, d: Dialogue, response: Bytes, last: bool,
                      hello: Bytes, stdin: Bytes, stdout: Bytes, calls: Calls)
    requires Follows(script, calls) && d.phase.Exchanging? && Following(script, d, hello, stdin, stdout, calls)
    ensures Following(script, Answer(d, response, last), hello, stdin, stdout, calls + [(d.request, response)])
    ensures Drained(Answer(d, response, last))
  {
    var more := calls + [(d.request, response)];
    forall i | 0 <= i < |more| ensures more[i].0 == script.ask(Given(more[..i])) {
      if i < |calls| {
        assert more[..i] == calls[..i] && more[i] == calls[i];
      } else {
        assert more[..i] == calls;
      }
    }
  }

  /** A new dialogue follows any program whose INIT fits. */
  lemma StartFollows(script: Script, init: Bytes)
    requires |init| <= Limit(Init)
    ensures Following(script, Start(init), [], [], [], []) && Drained(Start(init))
  {
  }

  // ------------------------------------------------------- a program at work

  /** The dialogue of a program that is given these answers. */
  function CallsFor(script: Script, answers: seq<Bytes>): Calls {
    seq(|answers|, i requires 0 <= i < |answers| => (script.ask(answers[..i]), answers[i]))
  }

  lemma GivenFor(script: Script, answers: seq<Bytes>, i: nat)
    requires i <= |answers|
    ensures Given(CallsFor(script, answers)[..i]) == answers[..i]
  {
  }

  /** An answer the supervisor takes: it fits, its stop flag is read as the program reads it, and it stops at the
      request limit. */
  predicate Taken(script: Script, codec: Codec, maxRequests: nat, answer: Bytes, i: nat) {
    |answer| <= Limit(Response) && codec.stop(answer) == Some(script.stops(answer))
    && (i + 1 == maxRequests ==> script.stops(answer))
  }

  /** A program suits every dialogue in which its questions fit and each answer is one the supervisor takes. */
  lemma CallsSuit(script: Script, codec: Codec, maxRequests: nat, answers: seq<Bytes>)
    requires |script.hello| <= Limit(Ready) && codec.readyOk(script.hello) && |script.result| <= Limit(Final)
    requires forall i :: 0 <= i < |answers| ==> Taken(script, codec, maxRequests, answers[i], i)
    requires forall i :: 0 <= i <= |answers| ==> |script.ask(answers[..i])| <= Limit(Request)
    ensures var calls := CallsFor(script, answers);
      Suited(script, codec, maxRequests, calls) && Follows(script, calls)
  {
    var calls := CallsFor(script, answers);
    forall i | 0 <= i < |calls| ensures Fitting(script, codec, maxRequests, calls, i) {
      assert Taken(script, codec, maxRequests, answers[i], i);
    }
    forall i | 0 <= i <= |calls| ensures |script.ask(Given(calls[..i]))| <= Limit(Request) {
      GivenFor(script, answers, i);
    }
    forall i | 0 <= i < |calls| ensures calls[i].0 == script.ask(Given(calls[..i])) {
      GivenFor(script, answers, i);
    }
  }
}
