/** Single-use human grants (recon_cockpit/secure_agent/approvals.py). */
module Approvals {
  import opened Prelude
  import opened Models

  const CAPACITY := 1024

  datatype Approval = Approval(reference: nat, action: Sha<Action>, policy: nat, expires: real)

  /** Live grants by token; tokens are drawn fresh, so `next` is above every token ever drawn. */
  datatype Store = Store(grants: map<nat, Approval>, next: nat)

  function Live(grants: map<nat, Approval>, now: real): map<nat, Approval> {
    map r | r in grants && grants[r].expires > now :: grants[r]
  }

  datatype Issued = Granted(store: Store, grant: Approval) | Refused(store: Store, code: string)

  function IssueStep(s: Store, now: real, action: Action, policy: Policy): Issued {
    if policy.evaluate(action) != ApprovalRequired then Refused(s, "approval_not_required")
    else
      var live := Live(s.grants, now);
      if |live| >= CAPACITY then Refused(s.(grants := live), "approval_capacity")
      else
        var grant := Approval(s.next, Sha256(action), policy.fingerprint, now + policy.ttl);
        Granted(Store(live[s.next := grant], s.next + 1), grant)
  }

  datatype Consumed = Consumed(store: Store, code: Option<string>, grant: Option<Approval>)

  function ConsumeStep(s: Store, now: real, reference: Reference, action: Action, policy: Policy): Consumed {
    match reference
    case Missing => Consumed(s, Some("approval_missing"), None)
    case Malformed => Consumed(s, Some("approval_unknown_or_replayed"), None)
    case Token(r) =>
      if r !in s.grants then Consumed(s, Some("approval_unknown_or_replayed"), None)
      else
        var grant, burnt := s.grants[r], s.(grants := s.grants - {r});
        if now >= grant.expires then Consumed(burnt, Some("approval_expired"), None)
        else if grant.action != Sha256(action) then Consumed(burnt, Some("approval_action_changed"), None)
        else if grant.policy != policy.fingerprint then Consumed(burnt, Some("approval_policy_changed"), None)
        else Consumed(burnt, None, Some(grant))
  }

  class ApprovalStore {
    var grants: map<nat, Approval>
    var next: nat

    ghost function Model(): Store
      reads this
    {
      Store(grants, next)
    }

    constructor ()
      ensures Model() == Store(map[], 0)
    {
      grants, next := map[], 0;
    }

    /** issue(): expired grants are purged first, even when the capacity check then fails. */
    method Issue(now: real, action: Action, policy: Policy) returns (grant: Result<Approval, string>)
      modifies this
      ensures Model() == IssueStep(old(Model()), now, action, policy).store
      ensures grant == match IssueStep(old(Model()), now, action, policy)
                       case Granted(_, g) => Ok(g)
                       case Refused(_, code) => Err(code)
    {
      if policy.evaluate(action) != ApprovalRequired { return Err("approval_not_required"); }
      grants := map r | r in grants && grants[r].expires > now :: grants[r];
      if |grants| >= CAPACITY { return Err("approval_capacity"); }
      var made := Approval(next, Sha256(action), policy.fingerprint, now + policy.ttl);
      grants, next := grants[next := made], next + 1;
      return Ok(made);
    }

    /** consume_with_grant(): the grant is popped before anything about it is checked. */
    method ConsumeWithGrant(now: real, reference: Reference, action: Action, policy: Policy)
      returns (code: Option<string>, grant: Option<Approval>)
      modifies this
      ensures Consumed(Model(), code, grant) == ConsumeStep(old(Model()), now, reference, action, policy)
    {
      if reference.Missing? { return Some("approval_missing"), None; }
      if reference.Malformed? || reference.n !in grants { return Some("approval_unknown_or_replayed"), None; }
      var popped := grants[reference.n];
      grants := grants - {reference.n};
      if now >= popped.expires { return Some("approval_expired"), None; }
      if popped.action != Sha256(action) { return Some("approval_action_changed"), None; }
      if popped.policy != policy.fingerprint { return Some("approval_policy_changed"), None; }
      return None, Some(popped);
    }
  }

  // ------------------------------------------------- any interleaving of calls

  datatype Op = Issue(now: real, action: Action, policy: Policy) | Consume(now: real, reference: Reference,
    action: Action, policy: Policy)

  function Apply(s: Store, op: Op): Store {
    match op
    case Issue(now, action, policy) => IssueStep(s, now, action, policy).store
    case Consume(now, reference, action, policy) => ConsumeStep(s, now, reference, action, policy).store
  }

  function After(ops: seq<Op>): Store {
    if ops == [] then Store(map[], 0) else Apply(After(ops[..|ops| - 1]), ops[|ops| - 1])
  }

  /** Call i presented token r and was accepted. */
  predicate Accepts(ops: seq<Op>, i: nat, r: nat)
    requires i < |ops|
  {
    ops[i].Consume? && ops[i].reference == Token(r)
    && ConsumeStep(After(ops[..i]), ops[i].now, ops[i].reference, ops[i].action, ops[i].policy).code.None?
  }

  /** Call i drew token r. */
  predicate Draws(ops: seq<Op>, i: nat, r: nat)
    requires i < |ops|
  {
    ops[i].Issue? && var made := IssueStep(After(ops[..i]), ops[i].now, ops[i].action, ops[i].policy);
      made.Granted? && made.grant.reference == r
  }

  ghost predicate Drawn(s: Store) {
    forall r :: r in s.grants ==> r < s.next && s.grants[r].reference == r
  }

  lemma {:induction false} AlwaysDrawn(ops: seq<Op>)
    ensures Drawn(After(ops))
  {
    if ops != [] { AlwaysDrawn(ops[..|ops| - 1]); }
  }

  /** A token that is not live any more never comes back. */
  lemma {:induction false} GoneForGood(ops: seq<Op>, i: nat, r: nat)
    requires i <= |ops| && r < After(ops[..i]).next && r !in After(ops[..i]).grants
    ensures r < After(ops).next && r !in After(ops).grants
  {
    if i < |ops| {
      assert ops[..|ops| - 1][..i] == ops[..i];
      GoneForGood(ops[..|ops| - 1], i, r);
    } else {
      assert ops[..i] == ops;
    }
  }

  lemma AfterNext(ops: seq<Op>, i: nat)
    requires i < |ops|
    ensures After(ops[..i + 1]) == Apply(After(ops[..i]), ops[i])
  {
    assert ops[..i + 1][..i] == ops[..i];
  }

  /** Any attempt on a live token burns it: every later attempt is refused as unknown. */
  lemma BurnsForGood(ops: seq<Op>, i: nat, j: nat, r: nat)
    requires i < j < |ops| && ops[i].Consume? && ops[i].reference == Token(r) && r in After(ops[..i]).grants
    requires ops[j].Consume? && ops[j].reference == Token(r)
    ensures ConsumeStep(After(ops[..j]), ops[j].now, ops[j].reference, ops[j].action, ops[j].policy).code
         == Some("approval_unknown_or_replayed")
  {
    AlwaysDrawn(ops[..i]);
    AfterNext(ops, i);
    assert ops[..j][..i + 1] == ops[..i + 1];
    GoneForGood(ops[..j], i + 1, r);
  }

  /** Linearity: over any interleaving of calls, a token is accepted at most once. */
  lemma AcceptedOnce(ops: seq<Op>, i: nat, j: nat, r: nat)
    requires i < |ops| && j < |ops| && Accepts(ops, i, r) && Accepts(ops, j, r)
    ensures i == j
  {
    if i < j { BurnsForGood(ops, i, j, r); }
    if j < i { BurnsForGood(ops, j, i, r); }
  }

  /** Every live grant goes back to the call that drew its token, unchanged. */
  lemma {:induction false} LiveWasDrawn(ops: seq<Op>, r: nat) returns (i: nat)
    requires r in After(ops).grants
    ensures i < |ops| && Draws(ops, i, r)
    ensures After(ops).grants[r] == IssueStep(After(ops[..i]), ops[i].now, ops[i].action, ops[i].policy).grant
  {
    var n := |ops| - 1;
    AlwaysDrawn(ops[..n]);
    if r in After(ops[..n]).grants {
      i := LiveWasDrawn(ops[..n], r);
      assert ops[..n][..i] == ops[..i];
    } else {
      i := n;
    }
  }

  /** Acceptance implies an earlier issue of that very token for the same action and policy, still unexpired. */
  lemma AcceptedWasIssued(ops: seq<Op>, j: nat, r: nat) returns (i: nat)
    requires j < |ops| && Accepts(ops, j, r)
    ensures i < j && Draws(ops, i, r)
    ensures ops[i].action == ops[j].action && ops[i].policy.fingerprint == ops[j].policy.fingerprint
    ensures ops[j].now < ops[i].now + ops[i].policy.ttl
  {
    i := LiveWasDrawn(ops[..j], r);
    assert ops[..j][..i] == ops[..i];
  }

  // --------------------------------------------------- exactly when it is accepted

  lemma {:induction false} NextGrows(ops: seq<Op>, i: nat)
    requires i <= |ops|
    ensures After(ops[..i]).next <= After(ops).next
  {
    if i < |ops| {
      assert ops[..|ops| - 1][..i] == ops[..i];
      NextGrows(ops[..|ops| - 1], i);
    } else {
      assert ops[..i] == ops;
    }
  }

  /** No token is drawn twice. */
  lemma DrawnOnce(ops: seq<Op>, i: nat, j: nat, r: nat)
    requires i < j < |ops| && Draws(ops, i, r)
    ensures !Draws(ops, j, r)
  {
    AfterNext(ops, i);
    assert ops[..j][..i + 1] == ops[..i + 1];
    NextGrows(ops[..j], i + 1);
  }

  /** An attempt on token r. */
  predicate Tries(op: Op, r: nat) {
    op.Consume? && op.reference == Token(r)
  }

  /** The clock of the calls never runs backwards. */
  ghost predicate Timed(ops: seq<Op>) {
    forall i, j :: 0 <= i < j < |ops| ==> ops[i].now <= ops[j].now
  }

  /** A call that does not try a grant leaves it alone until it expires. */
  lemma LeftAlone(s: Store, op: Op, r: nat)
    requires Drawn(s) && r in s.grants && !Tries(op, r) && op.now < s.grants[r].expires
    ensures r in Apply(s, op).grants && Apply(s, op).grants[r] == s.grants[r]
  {
  }

  function DrawnBy(ops: seq<Op>, i: nat): Issued
    requires i < |ops| && ops[i].Issue?
  {
    IssueStep(After(ops[..i]), ops[i].now, ops[i].action, ops[i].policy)
  }

  lemma LiveAtFirst(ops: seq<Op>, i: nat, r: nat)
    requires |ops| == i + 1 && Draws(ops, i, r)
    ensures r in After(ops).grants && After(ops).grants[r] == DrawnBy(ops, i).grant
    ensures DrawnBy(ops, i).grant.expires == ops[i].now + ops[i].policy.ttl
  {
  }

  lemma DrawnBefore(ops: seq<Op>, n: nat, i: nat, r: nat)
    requires i < n <= |ops| && Draws(ops, i, r)
    ensures Draws(ops[..n], i, r) && DrawnBy(ops[..n], i) == DrawnBy(ops, i)
  {
    assert ops[..n][..i] == ops[..i];
  }

  /** A grant stays live, as it was drawn, until it is tried or expires. */
  lemma {:induction false} StaysLive(ops: seq<Op>, i: nat, r: nat, until: real)
    requires i < |ops| && Draws(ops, i, r) && until < ops[i].now + ops[i].policy.ttl
    requires forall k :: i < k < |ops| ==> !Tries(ops[k], r) && ops[k].now <= until
    ensures r in After(ops).grants && After(ops).grants[r] == DrawnBy(ops, i).grant
    ensures DrawnBy(ops, i).grant.expires == ops[i].now + ops[i].policy.ttl
  {
    var n := |ops| - 1;
    if i == n {
      LiveAtFirst(ops, i, r);
    } else {
      DrawnBefore(ops, n, i, r);
      StaysLive(ops[..n], i, r, until);
      AlwaysDrawn(ops[..n]);
      LeftAlone(After(ops[..n]), ops[n], r);
    }
  }

  /** What was tried before is not live any more. */
  lemma TriedIsGone(ops: seq<Op>, k: nat, j: nat, r: nat)
    requires k < j < |ops| && Tries(ops[k], r) && r < After(ops[..k]).next && Tries(ops[j], r)
    ensures !Accepts(ops, j, r)
  {
    if r in After(ops[..k]).grants {
      BurnsForGood(ops, k, j, r);
    } else {
      assert ops[..j][..k] == ops[..k];
      GoneForGood(ops[..j], k, r);
    }
  }

  lemma FirstInTime(ops: seq<Op>, i: nat, j: nat, r: nat)
    requires Timed(ops) && i < j < |ops| && Draws(ops, i, r) && Tries(ops[j], r)
    requires forall k :: i < k < j ==> !Tries(ops[k], r)
    requires ops[j].now < ops[i].now + ops[i].policy.ttl
    ensures Accepts(ops, j, r) <==>
      ops[j].action == ops[i].action && ops[j].policy.fingerprint == ops[i].policy.fingerprint
  {
    assert ops[..j][..i] == ops[..i];
    StaysLive(ops[..j], i, r, ops[j].now);
  }

  lemma AcceptedFirst(ops: seq<Op>, i: nat, j: nat, r: nat)
    requires i < |ops| && j < |ops| && Draws(ops, i, r) && Accepts(ops, j, r)
    ensures i < j && Tries(ops[j], r) && ops[j].now < ops[i].now + ops[i].policy.ttl
  {
    var n := AcceptedWasIssued(ops, j, r);
    if i < n { DrawnOnce(ops, i, n, r); }
    if n < i { DrawnOnce(ops, n, i, r); }
  }

  lemma NotTriedBefore(ops: seq<Op>, i: nat, k: nat, j: nat, r: nat)
    requires i < k < j < |ops| && Draws(ops, i, r) && Accepts(ops, j, r)
    ensures !Tries(ops[k], r)
  {
    if Tries(ops[k], r) {
      AfterNext(ops, i);
      assert ops[..k][..i + 1] == ops[..i + 1];
      NextGrows(ops[..k], i + 1);
      TriedIsGone(ops, k, j, r);
    }
  }

  /** The grant that call i has drawn is accepted by call j exactly if j is the first attempt on it, presents the same
      action under the same policy, and comes in time. */
  lemma AcceptedExactly(ops: seq<Op>, i: nat, j: nat, r: nat)
    requires Timed(ops) && i < |ops| && j < |ops| && Draws(ops, i, r)
    ensures Accepts(ops, j, r) <==>
      && i < j && Tries(ops[j], r) && (forall k :: i < k < j ==> !Tries(ops[k], r))
      && ops[j].action == ops[i].action && ops[j].policy.fingerprint == ops[i].policy.fingerprint
      && ops[j].now < ops[i].now + ops[i].policy.ttl
  {
    if Accepts(ops, j, r) {
      AcceptedFirst(ops, i, j, r);
      forall k | i < k < j ensures !Tries(ops[k], r) { NotTriedBefore(ops, i, k, j, r); }
      FirstInTime(ops, i, j, r);
    } else if i < j && Tries(ops[j], r) && (forall k :: i < k < j ==> !Tries(ops[k], r))
      && ops[j].now < ops[i].now + ops[i].policy.ttl {
      FirstInTime(ops, i, j, r);
    }
  }
}
