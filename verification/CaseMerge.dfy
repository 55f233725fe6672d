/** Merging of evidence lists (recon_cockpit/case.py): every list is folded in order, the first record of a key
    keeps its place, and later records of that key refine it. */
module CaseMerge {
  import opened Prelude

  // ------------------------------------------------------------------ the fold

  /** How one kind of record is merged: its key (None: it is skipped), the record kept when a key is first seen, and
      the current record refined by a later one. */
  datatype Rules<!T, !K> = Rules(key: T -> Option<K>, first: T -> T, join: (T, T) -> T)

  function Find<T, K(==)>(r: Rules<T, K>, merged: seq<T>, k: K): (found: Option<nat>)
    ensures found.Some? ==> found.value < |merged| && r.key(merged[found.value]) == Some(k)
    ensures found.None? ==> forall i :: 0 <= i < |merged| ==> r.key(merged[i]) != Some(k)
  {
    if merged == [] then None
    else
      var n := |merged| - 1;
      match Find(r, merged[..n], k)
      case Some(i) => Some(i)
      case None => if r.key(merged[n]) == Some(k) then Some(n) else None
  }

  function Insert<T, K(==)>(r: Rules<T, K>, merged: seq<T>, candidate: T): seq<T> {
    match r.key(candidate)
    case None => merged
    case Some(k) =>
      match Find(r, merged, k)
      case None => merged + [r.first(candidate)]
      case Some(i) => merged[i := r.join(merged[i], candidate)]
  }

  function Fold<T, K(==)>(r: Rules<T, K>, merged: seq<T>, list: seq<T>): seq<T> {
    if list == [] then merged else Insert(r, Fold(r, merged, list[..|list| - 1]), list[|list| - 1])
  }

  function Merge<T, K(==)>(r: Rules<T, K>, existing: seq<T>, incoming: seq<T>): seq<T> {
    Fold(r, [], existing + incoming)
  }

  /** Refining never changes a key, and what is kept is kept as it is when it is merged again. */
  ghost predicate Lawful<T(!new), K(!new)>(r: Rules<T, K>) {
    && (forall c :: r.key(c).Some? ==> r.key(r.first(c)) == r.key(c) && r.first(r.first(c)) == r.first(c))
    && (forall a, c :: r.key(a).Some? && r.key(a) == r.key(c) ==> r.key(r.join(a, c)) == r.key(a))
    && (forall a, c :: r.key(a).Some? && r.key(a) == r.key(c) && r.first(a) == a ==>
      r.first(r.join(a, c)) == r.join(a, c))
  }

  /** A merged list: every record has a key of its own and is already in its kept form. */
  ghost predicate Normal<T(!new), K(!new)>(r: Rules<T, K>, merged: seq<T>) {
    && (forall i :: 0 <= i < |merged| ==> r.key(merged[i]).Some? && r.first(merged[i]) == merged[i])
    && (forall i, j :: 0 <= i < j < |merged| ==> r.key(merged[i]) != r.key(merged[j]))
  }

  lemma InsertNormal<T(!new), K(!new)>(r: Rules<T, K>, merged: seq<T>, candidate: T)
    requires Lawful(r) && Normal(r, merged)
    ensures Normal(r, Insert(r, merged, candidate))
  {
  }

  /** Keys are unique in whatever has been merged. */
  lemma {:induction false} FoldNormal<T(!new), K(!new)>(r: Rules<T, K>, merged: seq<T>, list: seq<T>)
    requires Lawful(r) && Normal(r, merged)
    ensures Normal(r, Fold(r, merged, list))
  {
    if list != [] {
      FoldNormal(r, merged, list[..|list| - 1]);
      InsertNormal(r, Fold(r, merged, list[..|list| - 1]), list[|list| - 1]);
    }
  }

  lemma {:induction false} FoldSplit<T, K>(r: Rules<T, K>, merged: seq<T>, a: seq<T>, b: seq<T>)
    ensures Fold(r, merged, a + b) == Fold(r, Fold(r, merged, a), b)
  {
    if b == [] {
      assert a + b == a;
    } else {
      assert (a + b)[..|a + b| - 1] == a + b[..|b| - 1];
      FoldSplit(r, merged, a, b[..|b| - 1]);
    }
  }

  /** Merging a merged list into nothing gives it back. */
  lemma {:induction false} Refold<T(!new), K(!new)>(r: Rules<T, K>, merged: seq<T>)
    requires Normal(r, merged)
    ensures Fold(r, [], merged) == merged
  {
    if merged != [] {
      var n := |merged| - 1;
      Refold(r, merged[..n]);
      assert Find(r, merged[..n], r.key(merged[n]).value).None?;
      assert merged[..n] + [merged[n]] == merged;
    }
  }

  /** Merging step by step gives what merging everything at once gives. */
  lemma Incremental<T(!new), K(!new)>(r: Rules<T, K>, x: seq<T>, y: seq<T>, z: seq<T>)
    requires Lawful(r)
    ensures Merge(r, Merge(r, x, y), z) == Merge(r, x, y + z)
  {
    var m := Merge(r, x, y);
    FoldNormal(r, [], x + y);
    FoldSplit(r, [], m, z);
    Refold(r, m);
    FoldSplit(r, [], x + y, z);
    Regroup(x, y, z);
  }

  lemma Regroup<T>(x: seq<T>, y: seq<T>, z: seq<T>)
    ensures (x + y) + z == x + (y + z)
  {
  }

  function Keys<T, K>(r: Rules<T, K>, list: seq<T>): seq<Option<K>> {
    seq(|list|, i requires 0 <= i < |list| => r.key(list[i]))
  }

  /** The keys of a list in the order they are first seen. */
  function FirstSeen<K(==)>(keys: seq<Option<K>>): seq<Option<K>> {
    if keys == [] then []
    else
      var front, last := FirstSeen(keys[..|keys| - 1]), keys[|keys| - 1];
      if last.None? || last in front then front else front + [last]
  }

  /** First-seen order is kept. */
  lemma {:induction false} OrderKept<T(!new), K(!new)>(r: Rules<T, K>, list: seq<T>)
    requires Lawful(r)
    ensures Keys(r, Fold(r, [], list)) == FirstSeen(Keys(r, list))
  {
    if list != [] {
      var p, c := list[..|list| - 1], list[|list| - 1];
      OrderKept(r, p);
      FoldNormal(r, [], p);
      assert Keys(r, list)[..|list| - 1] == Keys(r, p);
      var m := Fold(r, [], p);
      if r.key(c).Some? && Find(r, m, r.key(c).value).Some? {
        var i := Find(r, m, r.key(c).value).value;
        assert Keys(r, m)[i] == r.key(c);
        assert Keys(r, m[i := r.join(m[i], c)]) == Keys(r, m);
      } else if r.key(c).Some? {
        assert r.key(c) !in Keys(r, m);
        assert Keys(r, m + [r.first(c)]) == Keys(r, m) + [r.key(c)];
      }
    }
  }

  /** The table holds the position of every key of the merged list. */
  ghost predicate Positioned<T(!new), K(!new)>(r: Rules<T, K>, merged: seq<T>, positions: map<K, nat>) {
    forall k :: Find(r, merged, k) == if k in positions then Some(positions[k]) else None
  }

  lemma PositionAdded<T(!new), K(!new)>(r: Rules<T, K>, merged: seq<T>, positions: map<K, nat>, c: T)
    requires Lawful(r) && Normal(r, merged) && Positioned(r, merged, positions)
    requires r.key(c).Some? && r.key(c).value !in positions
    ensures Positioned(r, merged + [r.first(c)], positions[r.key(c).value := |merged|])
    ensures Insert(r, merged, c) == merged + [r.first(c)]
  {
    FindAppended(r, merged, c);
  }

  lemma PositionsKept<T(!new), K(!new)>(r: Rules<T, K>, merged: seq<T>, positions: map<K, nat>, c: T)
    requires Lawful(r) && Normal(r, merged) && Positioned(r, merged, positions)
    requires r.key(c).Some? && r.key(c).value in positions
    ensures positions[r.key(c).value] < |merged|
    ensures Positioned(r, merged[positions[r.key(c).value] := r.join(merged[positions[r.key(c).value]], c)], positions)
    ensures Insert(r, merged, c) ==
      merged[positions[r.key(c).value] := r.join(merged[positions[r.key(c).value]], c)]
  {
    assert Find(r, merged, r.key(c).value) == Some(positions[r.key(c).value]);
    FindRefined(r, merged, positions[r.key(c).value], c);
  }

  /** The merge loop, with the positions of the keys seen so far. */
  method MergeLists<T(!new), K(!new, ==)>(r: Rules<T, K>, existing: seq<T>, incoming: seq<T>) returns (merged: seq<T>)
    requires Lawful(r)
    ensures merged == Merge(r, existing, incoming)
  {
    var all := existing + incoming;
    merged := [];
    var positions: map<K, nat> := map[];
    for n := 0 to |all|
      invariant merged == Fold(r, [], all[..n]) && Normal(r, merged) && Positioned(r, merged, positions)
    {
      var candidate := all[n];
      assert all[..n + 1][..n] == all[..n];
      InsertNormal(r, merged, candidate);
      var key := r.key(candidate);
      if key.Some? {
        if key.value !in positions {
          PositionAdded(r, merged, positions, candidate);
          positions := positions[key.value := |merged|];
          merged := merged + [r.first(candidate)];
        } else {
          PositionsKept(r, merged, positions, candidate);
          var at := positions[key.value];
          merged := merged[at := r.join(merged[at], candidate)];
        }
      }
    }
    assert all[..|all|] == all;
  }

  lemma OnlyOne<T(!new), K(!new)>(r: Rules<T, K>, merged: seq<T>, i: nat, k: K)
    requires Normal(r, merged) && i < |merged| && r.key(merged[i]) == Some(k)
    ensures Find(r, merged, k) == Some(i)
  {
  }

  lemma FindAppended<T(!new), K(!new)>(r: Rules<T, K>, merged: seq<T>, c: T)
    requires Lawful(r) && Normal(r, merged) && r.key(c).Some? && Find(r, merged, r.key(c).value).None?
    ensures forall k :: Find(r, merged + [r.first(c)], k) == if Some(k) == r.key(c) then Some(|merged|)
      else Find(r, merged, k)
  {
    assert (merged + [r.first(c)])[..|merged|] == merged;
  }

  lemma FindRefined<T(!new), K(!new)>(r: Rules<T, K>, merged: seq<T>, i: nat, c: T)
    requires Lawful(r) && Normal(r, merged) && i < |merged| && r.key(merged[i]) == r.key(c)
    ensures forall k :: Find(r, merged[i := r.join(merged[i], c)], k) == Find(r, merged, k)
  {
    var refined := merged[i := r.join(merged[i], c)];
    InsertNormal(r, merged, c);
    forall j | 0 <= j < |merged| ensures r.key(refined[j]) == r.key(merged[j]) {}
    OnlyOne(r, merged, i, r.key(c).value);
    forall k ensures Find(r, refined, k) == Find(r, merged, k) {
      if Find(r, merged, k).Some? { OnlyOne(r, refined, Find(r, merged, k).value, k); }
    }
  }

  // ------------------------------------------------------- one key at a time

  /** The records of one key, in order. */
  function Group<T, K(==)>(r: Rules<T, K>, list: seq<T>, k: K): seq<T> {
    if list == [] then []
    else Group(r, list[..|list| - 1], k) + if r.key(list[|list| - 1]) == Some(k) then [list[|list| - 1]] else []
  }

  /** The records of one key, refined one after the other. */
  function Joined<T, K>(r: Rules<T, K>, group: seq<T>): T
    requires group != []
  {
    if |group| == 1 then r.first(group[0]) else r.join(Joined(r, group[..|group| - 1]), group[|group| - 1])
  }

  ghost predicate Explained<T, K>(r: Rules<T, K>, merged: seq<T>, k: K, group: seq<T>) {
    var at := Find(r, merged, k);
    (at.None? <==> group == []) && (at.Some? ==> merged[at.value] == Joined(r, group))
  }

  lemma ExplainedStep<T(!new), K(!new)>(r: Rules<T, K>, merged: seq<T>, k: K, group: seq<T>, c: T)
    requires Lawful(r) && Normal(r, merged) && Explained(r, merged, k, group)
    ensures Explained(r, Insert(r, merged, c), k, group + if r.key(c) == Some(k) then [c] else [])
  {
    if r.key(c) == Some(k) { assert (group + [c])[..|group|] == group; }
    assert group + [] == group;
    if r.key(c).Some? {
      var at := Find(r, merged, r.key(c).value);
      if at.None? { FindAppended(r, merged, c); } else { FindRefined(r, merged, at.value, c); }
    }
  }

  /** Keys do not interfere: each merged record is what the records of its own key make of each other. */
  lemma {:induction false} KeysIndependent<T(!new), K(!new)>(r: Rules<T, K>, list: seq<T>, k: K)
    requires Lawful(r)
    ensures Explained(r, Fold(r, [], list), k, Group(r, list, k))
  {
    if list != [] {
      var p, c := list[..|list| - 1], list[|list| - 1];
      KeysIndependent(r, p, k);
      FoldNormal(r, [], p);
      ExplainedStep(r, Fold(r, [], p), k, Group(r, p, k), c);
    }
  }

  // -------------------------------------------------------------- the records

  /** The text functions the keys are built with. Stripping twice is stripping once. */
  datatype Text = Text(strip: string -> string, casefold: string -> string)

  ghost predicate Strips(t: Text) {
    forall s :: t.strip(t.strip(s)) == t.strip(s)
  }

  function Key(t: Text, s: string): string {
    t.casefold(t.strip(s))
  }

  function NewOr(new': string, old': string): string {
    if new' != "" then new' else old'
  }

  datatype Host = Host(address: string, status: string, hostnames: seq<string>, osGuess: string)
  datatype Service = Service(host: string, port: int, protocol: string, state: string, name: string, product: string,
                             version: string, extraInfo: string, tunnel: string, scripts: seq<(string, string)>)
  datatype Finding = Finding(category: string, detail: string, source: string)
  datatype Credential = Credential(username: string, secret: string, domain: string, status: string, source: string)
  datatype Share = Share(host: string, name: string, permissions: string, remark: string, source: string)

  /** _merge_text_values() */
  function TextRules(t: Text): Rules<string, string> {
    Rules(v => if t.strip(v) == "" then None else Some(Key(t, v)), v => v, (a, c) => a)
  }

  function HostKey(t: Text, h: Host): Option<string> {
    if Key(t, h.address) == "" then None else Some(Key(t, h.address))
  }

  function FirstHost(t: Text, h: Host): Host {
    Host(t.strip(h.address), h.status, Merge(TextRules(t), [], h.hostnames), h.osGuess)
  }

  function JoinHost(t: Text, a: Host, c: Host): Host {
    Host(a.address, NewOr(c.status, a.status), Merge(TextRules(t), a.hostnames, c.hostnames),
      NewOr(c.osGuess, a.osGuess))
  }

  /** _merge_hosts() */
  function HostRules(t: Text): Rules<Host, string> {
    Rules(h => HostKey(t, h), h => FirstHost(t, h), (a, c) => JoinHost(t, a, c))
  }

  /** The scripts of a service, by name: a later output replaces an earlier one unless it is empty. */
  const SCRIPTS: Rules<(string, string), string> :=
    Rules((s: (string, string)) => Some(s.0), s => s, (a: (string, string), c: (string, string)) => if c.1 != "" then c
      else a)

  function JoinService(t: Text, a: Service, c: Service): Service {
    Service(NewOr(c.host, a.host), a.port, NewOr(c.protocol, a.protocol), NewOr(c.state, a.state),
            if c.name != "" && t.casefold(c.name) != "unknown" then c.name else a.name,
            NewOr(c.product, a.product), NewOr(c.version, a.version), NewOr(c.extraInfo, a.extraInfo),
              NewOr(c.tunnel, a.tunnel),
            Fold(SCRIPTS, a.scripts, c.scripts))
  }

  /** _merge_services() */
  function ServiceRules(t: Text): Rules<Service, (string, int, string)> {
    Rules((s: Service) => Some((Key(t, s.host), s.port, t.casefold(s.protocol))), s => s, (a, c) =>
      JoinService(t, a, c))
  }

  /** _merge_findings() */
  function FindingRules(t: Text): Rules<Finding, (string, string)> {
    Rules((f: Finding) => Some((Key(t, f.category), Key(t, f.detail))), f => f,
          (a: Finding, c: Finding) => if a.source == "" then a.(source := c.source) else a)
  }

  predicate At(s: string, word: string, i: nat) {
    i + |word| <= |s| && s[i..i + |word|] == word
  }

  predicate Contains(s: string, word: string) {
    exists i :: 0 <= i <= |s| && At(s, word, i)
  }

  predicate WordChar(c: char) {
    'a' <= c <= 'z' || 'A' <= c <= 'Z' || '0' <= c <= '9' || c == '_'
  }

  /** The word stands on its own, between word boundaries. */
  predicate ContainsWord(s: string, word: string) {
    exists i :: 0 <= i <= |s| && At(s, word, i)
      && (i == 0 || !WordChar(s[i - 1])) && (i + |word| == |s| || !WordChar(s[i + |word|]))
  }

  /** _credential_status_rank() */
  function StatusRank(t: Text, status: string): nat {
    var normalized := Key(t, status);
    if Contains(normalized, "success") || Contains(normalized, "pwned") || Contains(normalized, "admin")
       || ContainsWord(normalized, "valid") then 4
    else if Contains(normalized, "locked") || Contains(normalized, "expired") || Contains(normalized, "disabled") then 3
    else if Contains(normalized, "fail") || Contains(normalized, "invalid") || Contains(normalized, "denied") then 2
    else if normalized != "" && normalized != "unverified" then 1 else 0
  }

  predicate Manual(t: Text, source: string) {
    t.casefold(source) == "manual"
  }

  function CredentialKey(t: Text, c: Credential): Option<(string, string, string)> {
    Some((Key(t, c.domain), Key(t, c.username), c.secret))
  }

  function JoinCredential(t: Text, a: Credential, c: Credential): Credential {
    var b := if StatusRank(t, c.status) > StatusRank(t, a.status) then a.(status := c.status) else a;
    if Manual(t, c.source) && !Manual(t, a.source) then b.(source := c.source)
    else if a.source == "" && c.source != "" then b.(source := c.source) else b
  }

  /** _merge_credentials() */
  function CredentialRules(t: Text): Rules<Credential, (string, string, string)> {
    Rules(c => CredentialKey(t, c), c => c, (a, c) => JoinCredential(t, a, c))
  }

  /** _merge_shares() */
  function ShareRules(t: Text): Rules<Share, (string, string)> {
    Rules((s: Share) => Some((Key(t, s.host), Key(t, s.name))), s => s,
          (a: Share, c: Share) => a.(permissions := NewOr(c.permissions, a.permissions),
            remark := NewOr(c.remark, a.remark),
                                    source := if a.source == "" then c.source else a.source))
  }

  lemma TextLawful(t: Text)
    ensures Lawful(TextRules(t))
  {
  }

  lemma MergedSettles<T(!new), K(!new)>(r: Rules<T, K>, existing: seq<T>, incoming: seq<T>)
    requires Lawful(r)
    ensures Merge(r, [], Merge(r, existing, incoming)) == Merge(r, existing, incoming)
  {
    var m := Merge(r, existing, incoming);
    FoldNormal(r, [], existing + incoming);
    Refold(r, m);
    assert [] + m == m;
  }

  /** A merged list of texts stays as it is when it is merged again. */
  lemma TextsSettle(t: Text, existing: seq<string>, incoming: seq<string>)
    ensures Merge(TextRules(t), [], Merge(TextRules(t), existing, incoming)) == Merge(TextRules(t), existing, incoming)
  {
    TextLawful(t);
    MergedSettles(TextRules(t), existing, incoming);
  }

  lemma HostLawful(t: Text)
    requires Strips(t)
    ensures Lawful(HostRules(t))
  {
    forall h ensures FirstHost(t, FirstHost(t, h)) == FirstHost(t, h) { TextsSettle(t, [], h.hostnames); }
    forall a, c | FirstHost(t, a) == a ensures FirstHost(t, JoinHost(t, a, c)) == JoinHost(t, a, c) {
      TextsSettle(t, a.hostnames, c.hostnames);
    }
  }

  lemma ServiceLawful(t: Text)
    ensures Lawful(ServiceRules(t))
  {
  }

  lemma CredentialLawful(t: Text)
    ensures Lawful(CredentialRules(t))
  {
  }

  lemma FindingLawful(t: Text)
    ensures Lawful(FindingRules(t)) && Lawful(ShareRules(t))
  {
  }

  /** Every kind of evidence is merged incrementally. */
  lemma AllIncremental(t: Text)
    requires Strips(t)
    ensures forall x, y, z :: Merge(TextRules(t), Merge(TextRules(t), x, y), z) == Merge(TextRules(t), x, y + z)
    ensures forall x, y, z :: Merge(HostRules(t), Merge(HostRules(t), x, y), z) == Merge(HostRules(t), x, y + z)
    ensures forall x, y, z ::
      Merge(ServiceRules(t), Merge(ServiceRules(t), x, y), z) == Merge(ServiceRules(t), x, y + z)
    ensures forall x, y, z ::
      Merge(FindingRules(t), Merge(FindingRules(t), x, y), z) == Merge(FindingRules(t), x, y + z)
    ensures forall x, y, z ::
      Merge(CredentialRules(t), Merge(CredentialRules(t), x, y), z) == Merge(CredentialRules(t), x, y + z)
    ensures forall x, y, z :: Merge(ShareRules(t), Merge(ShareRules(t), x, y), z) == Merge(ShareRules(t), x, y + z)
  {
    TextLawful(t);
    HostLawful(t);
    ServiceLawful(t);
    CredentialLawful(t);
    FindingLawful(t);
    forall x, y, z ensures Merge(TextRules(t), Merge(TextRules(t), x, y), z) == Merge(TextRules(t), x, y + z) {
      Incremental(TextRules(t), x, y, z);
    }
    forall x, y, z ensures Merge(HostRules(t), Merge(HostRules(t), x, y), z) == Merge(HostRules(t), x, y + z) {
      Incremental(HostRules(t), x, y, z);
    }
    forall x, y, z ensures Merge(ServiceRules(t), Merge(ServiceRules(t), x, y), z) == Merge(ServiceRules(t), x, y + z) {
      Incremental(ServiceRules(t), x, y, z);
    }
    forall x, y, z ensures Merge(FindingRules(t), Merge(FindingRules(t), x, y), z) == Merge(FindingRules(t), x, y + z) {
      Incremental(FindingRules(t), x, y, z);
    }
    forall x, y, z
      ensures Merge(CredentialRules(t), Merge(CredentialRules(t), x, y), z) == Merge(CredentialRules(t), x, y + z)
    {
      Incremental(CredentialRules(t), x, y, z);
    }
    forall x, y, z ensures Merge(ShareRules(t), Merge(ShareRules(t), x, y), z) == Merge(ShareRules(t), x, y + z) {
      Incremental(ShareRules(t), x, y, z);
    }
  }

  // -------------------------------------------------------------- credentials

  /** The status at j is the first of maximal rank. */
  ghost predicate BestAt(rank: string -> nat, group: seq<Credential>, s: string, j: nat) {
    && j < |group| && group[j].status == s
    && (forall l :: 0 <= l < |group| ==> rank(group[l].status) <= rank(s))
    && (forall l :: 0 <= l < j ==> rank(group[l].status) < rank(s))
  }

  function Pick(rank: string -> nat, group: seq<Credential>): string
    requires group != []
  {
    var last := group[|group| - 1].status;
    if |group| == 1 then last
    else
      var front := Pick(rank, group[..|group| - 1]);
      if rank(last) > rank(front) then last else front
  }

  lemma {:induction false} PickedBest(rank: string -> nat, group: seq<Credential>) returns (j: nat)
    requires group != []
    ensures BestAt(rank, group, Pick(rank, group), j)
  {
    var n := |group| - 1;
    if n == 0 {
      j := 0;
    } else {
      j := PickedBest(rank, group[..n]);
      forall l | 0 <= l < n ensures group[..n][l] == group[l] {}
      if rank(group[n].status) > rank(Pick(rank, group[..n])) { j := n; }
    }
  }

  function RankOf(t: Text): string -> nat {
    s => StatusRank(t, s)
  }

  lemma {:induction false} JoinedStatus(t: Text, group: seq<Credential>)
    requires group != []
    ensures Joined(CredentialRules(t), group).status == Pick(RankOf(t), group)
  {
    var n := |group| - 1;
    if n > 0 {
      JoinedStatus(t, group[..n]);
      assert RankOf(t)(group[n].status) == StatusRank(t, group[n].status);
      assert Joined(CredentialRules(t), group) == JoinCredential(t, Joined(CredentialRules(t), group[..n]), group[n]);
    }
  }

  lemma {:induction false} JoinedSource(t: Text, group: seq<Credential>)
    requires group != [] && !Manual(t, "")
    ensures Manual(t, Joined(CredentialRules(t), group).source) <==>
      exists j :: 0 <= j < |group| && Manual(t, group[j].source)
  {
    var n := |group| - 1;
    if n > 0 {
      JoinedSource(t, group[..n]);
      forall j | 0 <= j < n ensures group[..n][j] == group[j] {}
    }
  }

  /** A merged credential carries the first status of maximal rank among all records of its key, and a manual source
      exactly if one of them is manual. */
  lemma BestCredential(t: Text, existing: seq<Credential>, incoming: seq<Credential>, i: nat) returns (j: nat)
    requires i < |Merge(CredentialRules(t), existing, incoming)| && !Manual(t, "")
    ensures var c := Merge(CredentialRules(t), existing, incoming)[i];
      var group := Group(CredentialRules(t), existing + incoming, CredentialKey(t, c).value);
      && BestAt(RankOf(t), group, c.status, j)
      && (Manual(t, c.source) <==> exists l :: 0 <= l < |group| && Manual(t, group[l].source))
  {
    var r, list := CredentialRules(t), existing + incoming;
    var m := Merge(r, existing, incoming);
    var k := CredentialKey(t, m[i]).value;
    CredentialLawful(t);
    FoldNormal(r, [], list);
    OnlyOne(r, m, i, k);
    KeysIndependent(r, list, k);
    JoinedStatus(t, Group(r, list, k));
    j := PickedBest(RankOf(t), Group(r, list, k));
    JoinedSource(t, Group(r, list, k));
  }

  // ------------------------------------------------------------ last and first values

  function Values<T>(field: T -> string, group: seq<T>): seq<string> {
    seq(|group|, i requires 0 <= i < |group| => field(group[i]))
  }

  /** The value is the last one given, or none was. */
  ghost predicate LastGiven(values: seq<string>, value: string) {
    if value == "" then forall i :: 0 <= i < |values| ==> values[i] == ""
    else exists j ::
      && 0 <= j < |values| && values[j] == value && forall i :: j < i < |values| ==> values[i] == ""
  }

  /** The value is the first one given, or none was. */
  ghost predicate FirstGiven(values: seq<string>, value: string) {
    if value == "" then forall i :: 0 <= i < |values| ==> values[i] == ""
    else exists j ::
      && 0 <= j < |values| && values[j] == value && forall i :: 0 <= i < j ==> values[i] == ""
  }

  lemma LastGivenMore(values: seq<string>, value: string, more: string)
    requires LastGiven(values, value)
    ensures LastGiven(values + [more], NewOr(more, value))
  {
    var all := values + [more];
    if more != "" {
      assert all[|values|] == more;
    } else if value != "" {
      var j :| 0 <= j < |values| && values[j] == value && forall i :: j < i < |values| ==> values[i] == "";
      assert all[j] == value;
    }
  }

  lemma FirstGivenMore(values: seq<string>, value: string, more: string)
    requires FirstGiven(values, value)
    ensures FirstGiven(values + [more], if value == "" then more else value)
  {
    var all := values + [more];
    if value != "" {
      var j :| 0 <= j < |values| && values[j] == value && forall i :: 0 <= i < j ==> values[i] == "";
      assert all[j] == value;
    } else if more != "" {
      assert all[|values|] == more;
    }
  }

  lemma ValuesMore<T>(field: T -> string, group: seq<T>)
    requires group != []
    ensures Values(field, group) == Values(field, group[..|group| - 1]) + [field(group[|group| - 1])]
  {
  }

  /** A field that a later record replaces unless it has none is the last one given. */
  lemma {:induction false} LastKept<T(!new), K(!new)>(r: Rules<T, K>, field: T -> string, group: seq<T>)
    requires group != [] && (forall c :: field(r.first(c)) == field(c))
    requires forall a, c :: field(r.join(a, c)) == NewOr(field(c), field(a))
    ensures LastGiven(Values(field, group), field(Joined(r, group)))
  {
    var n := |group| - 1;
    ValuesMore(field, group);
    if n == 0 {
      LastGivenMore([], "", field(group[0]));
      assert Values(field, group[..0]) == [];
    } else {
      LastKept(r, field, group[..n]);
      LastGivenMore(Values(field, group[..n]), field(Joined(r, group[..n])), field(group[n]));
    }
  }

  /** A field that a later record only fills in is the first one given. */
  lemma {:induction false} FirstKept<T(!new), K(!new)>(r: Rules<T, K>, field: T -> string, group: seq<T>)
    requires group != [] && (forall c :: field(r.first(c)) == field(c))
    requires forall a, c :: field(r.join(a, c)) == if field(a) == "" then field(c) else field(a)
    ensures FirstGiven(Values(field, group), field(Joined(r, group)))
  {
    var n := |group| - 1;
    ValuesMore(field, group);
    if n == 0 {
      FirstGivenMore([], "", field(group[0]));
      assert Values(field, group[..0]) == [];
    } else {
      FirstKept(r, field, group[..n]);
      FirstGivenMore(Values(field, group[..n]), field(Joined(r, group[..n])), field(group[n]));
    }
  }

  /** A merged record is what the records of its key make of each other. */
  lemma MergedIsJoined<T(!new), K(!new)>(r: Rules<T, K>, existing: seq<T>, incoming: seq<T>, i: nat) returns (k: K)
    requires Lawful(r) && i < |Merge(r, existing, incoming)|
    ensures r.key(Merge(r, existing, incoming)[i]) == Some(k) && Group(r, existing + incoming, k) != []
    ensures Merge(r, existing, incoming)[i] == Joined(r, Group(r, existing + incoming, k))
  {
    var m := Merge(r, existing, incoming);
    FoldNormal(r, [], existing + incoming);
    k := r.key(m[i]).value;
    OnlyOne(r, m, i, k);
    KeysIndependent(r, existing + incoming, k);
  }

  function Hostnames(group: seq<Host>): seq<string> {
    if group == [] then [] else Hostnames(group[..|group| - 1]) + group[|group| - 1].hostnames
  }

  lemma {:induction false} HostnamesJoined(t: Text, group: seq<Host>)
    requires group != []
    ensures Joined(HostRules(t), group).hostnames == Merge(TextRules(t), [], Hostnames(group))
  {
    var n := |group| - 1;
    if n == 0 {
      assert Hostnames(group[..0]) + group[0].hostnames == group[0].hostnames;
    } else {
      HostnamesJoined(t, group[..n]);
      TextLawful(t);
      Incremental(TextRules(t), [], Hostnames(group[..n]), group[n].hostnames);
    }
  }

  /** A merged host has the last status and guess its records give, and all their names, each once and in order. */
  lemma MergedHost(t: Text, existing: seq<Host>, incoming: seq<Host>, i: nat) returns (group: seq<Host>)
    requires Strips(t) && i < |Merge(HostRules(t), existing, incoming)|
    ensures var h := Merge(HostRules(t), existing, incoming)[i];
      && HostKey(t, h).Some? && group == Group(HostRules(t), existing + incoming, HostKey(t, h).value)
      && LastGiven(Values((x: Host) => x.status, group), h.status)
      && LastGiven(Values((x: Host) => x.osGuess, group), h.osGuess)
      && h.hostnames == Merge(TextRules(t), [], Hostnames(group))
  {
    HostLawful(t);
    var k := MergedIsJoined(HostRules(t), existing, incoming, i);
    group := Group(HostRules(t), existing + incoming, k);
    LastKept(HostRules(t), (x: Host) => x.status, group);
    LastKept(HostRules(t), (x: Host) => x.osGuess, group);
    HostnamesJoined(t, group);
  }

  /** A name that says something. */
  function KnownName(t: Text): Service -> string {
    (s: Service) => if t.casefold(s.name) != "unknown" then s.name else ""
  }

  lemma ServiceFields(t: Text, group: seq<Service>)
    requires group != []
    ensures var s := Joined(ServiceRules(t), group);
      && LastGiven(Values((x: Service) => x.state, group), s.state)
      && LastGiven(Values((x: Service) => x.product, group), s.product)
      && LastGiven(Values((x: Service) => x.version, group), s.version)
      && LastGiven(Values((x: Service) => x.extraInfo, group), s.extraInfo)
      && LastGiven(Values((x: Service) => x.tunnel, group), s.tunnel)
  {
    LastKept(ServiceRules(t), (x: Service) => x.state, group);
    LastKept(ServiceRules(t), (x: Service) => x.product, group);
    LastKept(ServiceRules(t), (x: Service) => x.version, group);
    LastKept(ServiceRules(t), (x: Service) => x.extraInfo, group);
    LastKept(ServiceRules(t), (x: Service) => x.tunnel, group);
  }

  /** A merged service has the last state, product, version, extra information and tunnel its records give, and the
      last name among them that is not unknown. */
  lemma MergedService(t: Text, existing: seq<Service>, incoming: seq<Service>, i: nat) returns (group: seq<Service>)
    requires i < |Merge(ServiceRules(t), existing, incoming)|
    ensures var s := Merge(ServiceRules(t), existing, incoming)[i];
      && group == Group(ServiceRules(t), existing + incoming, (Key(t, s.host), s.port, t.casefold(s.protocol)))
      && LastGiven(Values((x: Service) => x.state, group), s.state)
      && LastGiven(Values((x: Service) => x.product, group), s.product)
      && LastGiven(Values((x: Service) => x.version, group), s.version)
      && LastGiven(Values((x: Service) => x.extraInfo, group), s.extraInfo)
      && LastGiven(Values((x: Service) => x.tunnel, group), s.tunnel)
      && LastGiven(Values(KnownName(t), group), KnownName(t)(s))
  {
    ServiceLawful(t);
    var k := MergedIsJoined(ServiceRules(t), existing, incoming, i);
    group := Group(ServiceRules(t), existing + incoming, k);
    ServiceFields(t, group);
    LastKept(ServiceRules(t), KnownName(t), group);
  }

  /** A merged share has the last permissions and remark its records give, and the first source. */
  lemma MergedShare(t: Text, existing: seq<Share>, incoming: seq<Share>, i: nat) returns (group: seq<Share>)
    requires i < |Merge(ShareRules(t), existing, incoming)|
    ensures var s := Merge(ShareRules(t), existing, incoming)[i];
      && group == Group(ShareRules(t), existing + incoming, (Key(t, s.host), Key(t, s.name)))
      && LastGiven(Values((x: Share) => x.permissions, group), s.permissions)
      && LastGiven(Values((x: Share) => x.remark, group), s.remark)
      && FirstGiven(Values((x: Share) => x.source, group), s.source)
  {
    FindingLawful(t);
    var k := MergedIsJoined(ShareRules(t), existing, incoming, i);
    group := Group(ShareRules(t), existing + incoming, k);
    LastKept(ShareRules(t), (x: Share) => x.permissions, group);
    LastKept(ShareRules(t), (x: Share) => x.remark, group);
    FirstKept(ShareRules(t), (x: Share) => x.source, group);
  }

  /** A merged finding has the first source its records give. */
  lemma MergedFinding(t: Text, existing: seq<Finding>, incoming: seq<Finding>, i: nat) returns (group: seq<Finding>)
    requires i < |Merge(FindingRules(t), existing, incoming)|
    ensures var f := Merge(FindingRules(t), existing, incoming)[i];
      && group == Group(FindingRules(t), existing + incoming, (Key(t, f.category), Key(t, f.detail)))
      && FirstGiven(Values((x: Finding) => x.source, group), f.source)
  {
    FindingLawful(t);
    var k := MergedIsJoined(FindingRules(t), existing, incoming, i);
    group := Group(FindingRules(t), existing + incoming, k);
    FirstKept(FindingRules(t), (x: Finding) => x.source, group);
  }
}
