/** A token starts at most one run segment, and only the run that was previewed, under every interleaving. */
module GrantSafety {
  import opened Wrappers
  import opened Grants
  import Decimal

  // ---------------------------------------------------------------- the digest

  lemma FrameSplits(a: string, x: string, b: string, y: string)
    requires Frame(a) + x == Frame(b) + y
    ensures a == b && x == y
  {
    var m, n := Decimal.Format(|a|), Decimal.Format(|b|);
    assert Frame(a) + x == m + (['\0'] + a + x) && Frame(b) + y == n + (['\0'] + b + y);
    SameLengthText(m, ['\0'] + a + x, n, ['\0'] + b + y);
    Tails(m, a, x, b, y);
  }

  /** The zero byte ends the length: it is not a digit. */
  lemma SameLengthText(m: string, u: string, n: string, v: string)
    requires Decimal.AllDigits(m) && Decimal.AllDigits(n) && u != "" && v != "" && u[0] == '\0' && v[0] == '\0'
    requires m + u == n + v
    ensures m == n && u == v
  {
    var whole := m + u;
    NotLonger(m, u, n, v);
    NotLonger(n, v, m, u);
    assert whole[..|m|] == m && whole[..|n|] == n;
    assert whole[|m|..] == u && whole[|n|..] == v;
  }

  lemma NotLonger(m: string, u: string, n: string, v: string)
    requires Decimal.AllDigits(m) && v != "" && v[0] == '\0' && m + u == n + v
    ensures |m| <= |n|
  {
    assert (n + v)[|n|] == '\0';
    assert forall k :: 0 <= k < |m| ==> (m + u)[k] == m[k] && Decimal.IsDigit(m[k]);
  }

  lemma Tails(m: string, a: string, x: string, b: string, y: string)
    requires m == Decimal.Format(|a|) && m == Decimal.Format(|b|) && ['\0'] + a + x == ['\0'] + b + y
    ensures a == b && x == y
  {
    var u := ['\0'] + a + x;
    assert |a| == Decimal.Value(m) == |b|;
    assert u[1..1 + |a|] == a && u[1..1 + |b|] == b && u[1 + |a|..] == x && u[1 + |b|..] == y;
  }

  lemma {:induction false} FramesAreInjective(a: seq<string>, b: seq<string>)
    requires |a| == |b| && Frames(a) == Frames(b)
    ensures a == b
  {
    if a != [] {
      FrameSplits(a[0], Frames(a[1..]), b[0], Frames(b[1..]));
      FramesAreInjective(a[1..], b[1..]);
      assert a == [a[0]] + a[1..] && b == [b[0]] + b[1..];
    }
  }

  /** Two bindings with the same digest are the same binding, whatever bytes their fields hold. */
  lemma DigestFixesBinding(a: Binding, b: Binding)
    requires BindingDigest(a) == BindingDigest(b)
    ensures a == b
  {
    FramesAreInjective(Values(a), Values(b));
    hide Frames;
    SameValues(a, b);
  }

  lemma SameValues(a: Binding, b: Binding)
    requires Values(a) == Values(b)
    ensures a == b
  {
    var u, v := Values(a), Values(b);
    assert u[1] == v[1] && u[2] == v[2] && u[3] == v[3] && u[4] == v[4] && u[5] == v[5];
    assert a.stand == b.stand by { assert u[6] == v[6] && u[7] == v[7] && u[8] == v[8]; }
    assert a.material == b.material by { assert u[9] == v[9] && u[10] == v[10] && u[11] == v[11] && u[12] == v[12] && u[13] == v[13]; }
    assert a.owner == b.owner by {
      assert u[14] == v[14] && u[15] == v[15] && u[16] == v[16] && u[17] == v[17] && u[18] == v[18] && u[19] == v[19];
    }
  }

  // ---------------------------------------------------------------- invariants

  predicate GrantOk(r: Registry, issued: map<Token, Issued>, t: Token)
    requires t in r.records
  {
    var grant := r.records[t];
    && t in issued && grant.binding == issued[t].binding && grant.expires == issued[t].expires
    && (grant.consumed ==> grant.reservation.None?)
  }

  /** The scope index points at the unconsumed grant of exactly that job and command. */
  predicate ScopeOk(r: Registry, scope: string)
    requires scope in r.scopes
  {
    var t := r.scopes[scope];
    t in r.records && GrantScope(r.records[t].binding) == scope && !r.records[t].consumed
  }

  predicate RegistryInv(r: Registry, issued: map<Token, Issued>) {
    (forall t :: t in r.records ==> GrantOk(r, issued, t)) && forall scope :: scope in r.scopes ==> ScopeOk(r, scope)
  }

  /** A call that got past Reserve was issued for its very binding, and nobody else holds its grant. */
  predicate CallOk(r: Registry, issued: map<Token, Issued>, call: Call) {
    !call.phase.Looked? ==>
      var res := call.phase.res;
      && res.token == call.req.token && res.token in issued && call.req.binding == issued[res.token].binding
      && res.expires == issued[res.token].expires && (res.token in r.records ==> Holds(r, res))
  }

  predicate Exclusive(calls: map<nat, Call>, c: nat, d: nat)
    requires c in calls && d in calls
  {
    calls[c].phase.Looked? || calls[d].phase.Looked? || c == d || calls[c].phase.res.token != calls[d].phase.res.token
  }

  predicate IssuedOk(s: Sys, t: Token)
    requires t in s.issued
  {
    s.issued[t].at <= s.now && s.issued[t].expires <= s.issued[t].at + GRANT_SECONDS
  }

  predicate SegmentOk(s: Sys, seg: Segment) {
    && seg.token in s.issued && seg.binding == s.issued[seg.token].binding
    && s.issued[seg.token].at <= seg.at < s.issued[seg.token].expires
    && CommandScope(seg.binding) in s.ledger && s.ledger[CommandScope(seg.binding)].token == Sha256(seg.token)
  }

  predicate ScopesDiffer(segments: seq<Segment>, i: nat, j: nat)
    requires i < |segments| && j < |segments|
  {
    CommandScope(segments[i].binding) != CommandScope(segments[j].binding)
  }

  predicate CallsInv(r: Registry, issued: map<Token, Issued>, calls: map<nat, Call>) {
    && (forall c :: c in calls ==> CallOk(r, issued, calls[c]))
    && (forall c, d :: c in calls && d in calls ==> Exclusive(calls, c, d))
  }

  predicate SegmentsInv(s: Sys) {
    && (forall t :: t in s.issued ==> IssuedOk(s, t))
    && (forall i :: 0 <= i < |s.segments| ==> SegmentOk(s, s.segments[i]))
    && (forall i, j :: 0 <= i < j < |s.segments| ==> ScopesDiffer(s.segments, i, j))
  }

  predicate Inv(s: Sys) {
    RegistryInv(s.registry, s.issued) && CallsInv(s.registry, s.issued, s.calls) && SegmentsInv(s)
  }

  // ---------------------------------------------------------------- the registry's operations

  /** Purging keeps every held grant and never leaves a scope behind that points nowhere. */
  lemma PurgeKeeps(r: Registry, issued: map<Token, Issued>, now: int)
    requires RegistryInv(r, issued)
    ensures RegistryInv(Purge(r, now), issued)
    ensures forall t :: t in Purge(r, now).records ==> t in r.records && Purge(r, now).records[t] == r.records[t]
    ensures forall t :: t in r.records && r.records[t].reservation.Some? ==> t in Purge(r, now).records
  {
    var after := Purge(r, now);
    forall t | t in after.records ensures GrantOk(after, issued, t) {
      assert GrantOk(r, issued, t);
    }
    forall scope | scope in after.scopes ensures ScopeOk(after, scope) {
      assert ScopeOk(r, scope);
    }
  }

  lemma {:induction false} DrawIsNew(records: map<Token, Grant>, random: seq<Token>, k: nat)
    requires k <= DRAWS && Draw(records, random, k).Ok?
    ensures Draw(records, random, k).value !in records && Draw(records, random, k).value in random
    decreases DRAWS - k
  {
    if random[k] in records {
      DrawIsNew(records, random, k + 1);
    }
  }

  /** A token that is answered is live, unheld and for exactly this binding. */
  lemma IssueAnswers(r: Registry, issued: map<Token, Issued>, b: Binding, expires: int, uuid: bool, random: seq<Token>, now: int)
    requires RegistryInv(r, issued) && Issue(r, b, expires, uuid, random, now).1.Ok?
    ensures var (after, answer) := Issue(r, b, expires, uuid, random, now);
            && GrantScope(b) in after.scopes && after.scopes[GrantScope(b)] == answer.value && answer.value in after.records
            && after.records[answer.value] == Grant(b, after.records[answer.value].expires, None, false)
            && now < after.records[answer.value].expires
  {
    hide Values, Frames, WellFormed;
    PurgeKeeps(r, issued, now);
    var p := Purge(r, now);
    if GrantScope(b) in p.scopes {
      var t := p.scopes[GrantScope(b)];
      DigestFixesBinding(p.records[t].binding, b);
      assert !Purgeable(r.records[t], now);
    } else {
      DrawIsNew(p.records, random, 0);
    }
  }

  /** A repeated preview of the same command gets the same token back, without a draw. */
  lemma IssueIsIdempotent(r: Registry, issued: map<Token, Issued>, b: Binding, expires: int, uuid: bool, random: seq<Token>, now: int)
    requires RegistryInv(r, issued) && Issue(r, b, expires, uuid, random, now).1.Ok?
    ensures Issue(Issue(r, b, expires, uuid, random, now).0, b, expires, uuid, [], now) == Issue(r, b, expires, uuid, random, now)
  {
    var (after, answer) := Issue(r, b, expires, uuid, random, now);
    IssueAnswers(r, issued, b, expires, uuid, random, now);
    IssueIsPurged(r, b, expires, uuid, random, now);
    PurgeOfPurged(after, now);
    hide Purge;
  }

  lemma IssueIsPurged(r: Registry, b: Binding, expires: int, uuid: bool, random: seq<Token>, now: int)
    requires Issue(r, b, expires, uuid, random, now).1.Ok?
    ensures forall t :: t in Issue(r, b, expires, uuid, random, now).0.records
                        ==> !Purgeable(Issue(r, b, expires, uuid, random, now).0.records[t], now)
  {
  }

  lemma PurgeOfPurged(r: Registry, now: int)
    requires forall t :: t in r.records ==> !Purgeable(r.records[t], now)
    ensures Purge(r, now) == r
  {
  }

  lemma CallsAfterPurge(r: Registry, issued: map<Token, Issued>, calls: map<nat, Call>, now: int)
    requires RegistryInv(r, issued) && CallsInv(r, issued, calls)
    ensures CallsInv(Purge(r, now), issued, calls)
  {
    PurgeKeeps(r, issued, now);
    hide Purge, RegistryInv;
    forall c | c in calls ensures CallOk(Purge(r, now), issued, calls[c]) {
      assert CallOk(r, issued, calls[c]);
    }
    forall c, d | c in calls && d in calls ensures Exclusive(calls, c, d) {}
  }

  lemma NewGrant(p: Registry, issued: map<Token, Issued>, calls: map<nat, Call>, t: Token, b: Binding, expires: int, now: int)
    requires RegistryInv(p, issued) && CallsInv(p, issued, calls) && t !in issued && GrantScope(b) !in p.scopes
    ensures var after := Registry(p.records[t := Grant(b, expires, None, false)], p.scopes[GrantScope(b) := t]);
            var more := issued[t := Issued(b, expires, now)];
            RegistryInv(after, more) && CallsInv(after, more, calls)
  {
    var after := Registry(p.records[t := Grant(b, expires, None, false)], p.scopes[GrantScope(b) := t]);
    var more := issued[t := Issued(b, expires, now)];
    forall x | x in after.records ensures GrantOk(after, more, x) {
      if x != t { assert GrantOk(p, issued, x); }
    }
    forall scope | scope in after.scopes ensures ScopeOk(after, scope) {
      if scope != GrantScope(b) {
        assert ScopeOk(p, scope);
        assert GrantOk(p, issued, p.scopes[scope]);
      }
    }
    forall c | c in calls ensures CallOk(after, more, calls[c]) {
      assert CallOk(p, issued, calls[c]);
    }
    forall c, d | c in calls && d in calls ensures Exclusive(calls, c, d) {}
  }

  lemma IssuedSegments(s: Sys, t: Token, b: Binding, expires: int)
    requires SegmentsInv(s) && t !in s.issued && expires <= s.now + GRANT_SECONDS
    ensures SegmentsInv(s.(issued := s.issued[t := Issued(b, expires, s.now)]))
  {
    var after := s.(issued := s.issued[t := Issued(b, expires, s.now)]);
    forall x | x in after.issued ensures IssuedOk(after, x) {
      if x != t { assert IssuedOk(s, x); }
    }
    forall i | 0 <= i < |after.segments| ensures SegmentOk(after, after.segments[i]) {
      assert SegmentOk(s, s.segments[i]);
    }
    forall i, j | 0 <= i < j < |after.segments| ensures ScopesDiffer(after.segments, i, j) {
      assert ScopesDiffer(s.segments, i, j);
    }
  }

  /** Only the registry and the calls moved. */
  lemma SegmentsStay(s: Sys, registry: Registry, calls: map<nat, Call>)
    requires SegmentsInv(s)
    ensures SegmentsInv(s.(registry := registry, calls := calls))
  {
    var after := s.(registry := registry, calls := calls);
    forall t | t in after.issued ensures IssuedOk(after, t) { assert IssuedOk(s, t); }
    forall i | 0 <= i < |after.segments| ensures SegmentOk(after, after.segments[i]) { assert SegmentOk(s, s.segments[i]); }
    forall i, j | 0 <= i < j < |after.segments| ensures ScopesDiffer(after.segments, i, j) { assert ScopesDiffer(s.segments, i, j); }
  }

  lemma IssueKeeps(s: Sys, b: Binding, expires: int, uuid: bool, random: seq<Token>)
    requires Inv(s) && FreshTokens(s, random)
    ensures Inv(IssueStep(s, b, expires, uuid, random))
  {
    var (registry, answer) := Issue(s.registry, b, expires, uuid, random, s.now);
    var p := Purge(s.registry, s.now);
    PurgeKeeps(s.registry, s.issued, s.now);
    CallsAfterPurge(s.registry, s.issued, s.calls, s.now);
    hide RegistryInv, CallsInv, SegmentsInv, Purge;
    SegmentsStay(s, registry, s.calls);
    if answer.Ok? && GrantScope(b) !in p.scopes {
      DrawIsNew(p.records, random, 0);
      NewGrant(p, s.issued, s.calls, answer.value, b, expires, s.now);
      IssuedSegments(s.(registry := registry), answer.value, b, expires);
    } else if answer.Ok? {
      ScopedIsIssued(p, s.issued, GrantScope(b));
    }
  }

  lemma ScopedIsIssued(r: Registry, issued: map<Token, Issued>, scope: string)
    requires RegistryInv(r, issued) && scope in r.scopes
    ensures r.scopes[scope] in issued
  {
    assert ScopeOk(r, scope);
    assert GrantOk(r, issued, r.scopes[scope]);
  }

  lemma ReserveKeeps(s: Sys, c: nat, id: Id)
    requires Inv(s) && c in s.calls && s.calls[c].phase.Looked? && FreshId(s, id)
    ensures Inv(ReserveStep(s, c, id))
  {
    var req := s.calls[c].req;
    var p := Purge(s.registry, s.now);
    var (registry, answer) := Reserve(s.registry, req.token, req.binding, id, s.now);
    PurgeKeeps(s.registry, s.issued, s.now);
    CallsAfterPurge(s.registry, s.issued, s.calls, s.now);
    hide RegistryInv, CallsInv, SegmentsInv, Purge;
    SegmentsStay(s, registry, ReserveStep(s, c, id).calls);
    if answer.Ok? {
      DigestFixesBinding(p.records[req.token].binding, req.binding);
      HoldGrant(p, s.issued, s.calls, c, id);
    } else {
      FewerCalls(p, s.issued, s.calls, c);
    }
  }

  lemma FewerCalls(r: Registry, issued: map<Token, Issued>, calls: map<nat, Call>, c: nat)
    requires CallsInv(r, issued, calls)
    ensures CallsInv(r, issued, Forget(calls, c))
  {
    forall x, y | x in Forget(calls, c) && y in Forget(calls, c) ensures Exclusive(Forget(calls, c), x, y) {
      assert Exclusive(calls, x, y);
    }
  }

  /** A free grant becomes held: whoever held this token before would still hold it. */
  lemma HoldGrant(p: Registry, issued: map<Token, Issued>, calls: map<nat, Call>, c: nat, id: Id)
    requires RegistryInv(p, issued) && CallsInv(p, issued, calls) && c in calls
    requires var t := calls[c].req.token;
             t in p.records && !p.records[t].consumed && p.records[t].reservation.None? && p.records[t].binding == calls[c].req.binding
    ensures var req := calls[c].req; var grant := p.records[req.token];
            var after := p.(records := p.records[req.token := grant.(reservation := Some(id))]);
            RegistryInv(after, issued)
            && CallsInv(after, issued, calls[c := Call(req, Held(Reservation(req.token, id, grant.binding, grant.expires)))])
  {
    var req := calls[c].req;
    var grant := p.records[req.token];
    var after := p.(records := p.records[req.token := grant.(reservation := Some(id))]);
    var next := calls[c := Call(req, Held(Reservation(req.token, id, grant.binding, grant.expires)))];
    SameBindings(p, issued, req.token, after.records[req.token]);
    assert GrantOk(p, issued, req.token);
    forall d | d in next ensures CallOk(after, issued, next[d]) {
      if d != c { assert CallOk(p, issued, calls[d]); }
    }
    forall x, y | x in next && y in next ensures Exclusive(next, x, y) {
      if x != c { assert CallOk(p, issued, calls[x]); }
      if y != c { assert CallOk(p, issued, calls[y]); }
      if x != c && y != c { assert Exclusive(calls, x, y); }
    }
  }

  /** Only the reservation of one live grant changed. */
  lemma SameBindings(r: Registry, issued: map<Token, Issued>, t: Token, grant: Grant)
    requires RegistryInv(r, issued) && t in r.records && !grant.consumed && !r.records[t].consumed
    requires grant.binding == r.records[t].binding && grant.expires == r.records[t].expires
    ensures RegistryInv(r.(records := r.records[t := grant]), issued)
  {
    var after := r.(records := r.records[t := grant]);
    forall x | x in after.records ensures GrantOk(after, issued, x) {
      assert GrantOk(r, issued, x);
    }
    forall scope | scope in after.scopes ensures ScopeOk(after, scope) {
      assert ScopeOk(r, scope);
    }
  }

  // ---------------------------------------------------------------- the transaction and the end of a call

  /** Moving one call on without changing what it holds. */
  lemma PhaseMoves(r: Registry, issued: map<Token, Issued>, calls: map<nat, Call>, c: nat, phase: Phase)
    requires CallsInv(r, issued, calls) && c in calls && !calls[c].phase.Looked? && !phase.Looked? && phase.res == calls[c].phase.res
    ensures CallsInv(r, issued, calls[c := calls[c].(phase := phase)])
  {
    var next := calls[c := calls[c].(phase := phase)];
    forall d | d in next ensures CallOk(r, issued, next[d]) {
      assert CallOk(r, issued, calls[d]);
    }
    forall x, y | x in next && y in next ensures Exclusive(next, x, y) {
      assert Exclusive(calls, x, y);
    }
  }

  lemma NewCall(r: Registry, issued: map<Token, Issued>, calls: map<nat, Call>, c: nat, req: Request)
    requires CallsInv(r, issued, calls) && c !in calls
    ensures CallsInv(r, issued, calls[c := Call(req, Looked)])
  {
    var next := calls[c := Call(req, Looked)];
    forall d | d in next ensures CallOk(r, issued, next[d]) {
      if d != c { assert CallOk(r, issued, calls[d]); }
    }
    forall x, y | x in next && y in next ensures Exclusive(next, x, y) {
      if x != c && y != c { assert Exclusive(calls, x, y); }
    }
  }

  /** The ledger only grows. */
  lemma LedgerGrows(s: Sys, scope: string, digest: CommandDigest)
    requires SegmentsInv(s) && scope !in s.ledger
    ensures SegmentsInv(s.(ledger := s.ledger[scope := digest]))
  {
    var after := s.(ledger := s.ledger[scope := digest]);
    forall t | t in after.issued ensures IssuedOk(after, t) { assert IssuedOk(s, t); }
    forall i | 0 <= i < |after.segments| ensures SegmentOk(after, after.segments[i]) { assert SegmentOk(s, s.segments[i]); }
    forall i, j | 0 <= i < j < |after.segments| ensures ScopesDiffer(after.segments, i, j) { assert ScopesDiffer(s.segments, i, j); }
  }

  lemma SegmentAdded(s: Sys, req: Request)
    requires SegmentsInv(s) && CommandScope(req.binding) !in s.ledger
    requires req.token in s.issued && req.binding == s.issued[req.token].binding && s.now < s.issued[req.token].expires
    ensures SegmentsInv(s.(ledger := s.ledger[CommandScope(req.binding) := DigestOf(req)],
                           segments := s.segments + [Segment(req.token, req.binding, s.now)]))
  {
    var scope := CommandScope(req.binding);
    var grown := s.(ledger := s.ledger[scope := DigestOf(req)]);
    var after := grown.(segments := s.segments + [Segment(req.token, req.binding, s.now)]);
    LedgerGrows(s, scope, DigestOf(req));
    forall t | t in after.issued ensures IssuedOk(after, t) { assert IssuedOk(s, t); }
    forall i | 0 <= i < |after.segments| ensures SegmentOk(after, after.segments[i]) {
      if i < |s.segments| {
        assert SegmentOk(grown, grown.segments[i]);
      } else {
        assert IssuedOk(s, req.token);
      }
    }
    forall i, j | 0 <= i < j < |after.segments| ensures ScopesDiffer(after.segments, i, j) {
      assert SegmentOk(s, s.segments[i]);
      if j < |s.segments| { assert ScopesDiffer(s.segments, i, j); }
    }
  }

  lemma StartKeeps(s: Sys, c: nat, allowed: bool, lost: bool)
    requires Inv(s) && c in s.calls && s.calls[c].phase.Live?
    ensures Inv(StartStep(s, c, allowed, lost))
  {
    var req, res := s.calls[c].req, s.calls[c].phase.res;
    var after := StartStep(s, c, allowed, lost);
    assert CallOk(s.registry, s.issued, s.calls[c]);
    hide RegistryInv, CallsInv, SegmentsInv;
    PhaseMoves(s.registry, s.issued, s.calls, c, after.calls[c].phase);
    SegmentsStay(s, s.registry, after.calls);
    if after.segments != s.segments {
      SegmentAdded(s.(calls := after.calls), req);
    }
  }

  /** Consuming or giving back concerns nobody else: nobody else holds the token. */
  lemma FinishKeeps(s: Sys, c: nat)
    requires Inv(s) && c in s.calls && s.calls[c].phase.Answered?
    ensures Inv(FinishStep(s, c))
  {
    var res := s.calls[c].phase.res;
    var after := FinishStep(s, c);
    assert CallOk(s.registry, s.issued, s.calls[c]);
    hide CallsInv, SegmentsInv;
    SegmentsStay(s, after.registry, after.calls);
    if res.token in s.registry.records {
      var grant := s.registry.records[res.token];
      hide RegistryInv;
      FewerCalls(s.registry, s.issued, s.calls, c);
      ConsumeKeeps(s.registry, s.issued, res.token);
      SameBindings(s.registry, s.issued, res.token, grant.(reservation := None));
      OthersHold(s, c, after.registry);
    } else {
      FewerCalls(s.registry, s.issued, s.calls, c);
    }
  }

  lemma ConsumeKeeps(r: Registry, issued: map<Token, Issued>, t: Token)
    requires RegistryInv(r, issued) && t in r.records
    ensures var grant := r.records[t];
            RegistryInv(Registry(r.records[t := grant.(consumed := true, reservation := None)], r.scopes - {GrantScope(grant.binding)}), issued)
  {
    var grant := r.records[t];
    var after := Registry(r.records[t := grant.(consumed := true, reservation := None)], r.scopes - {GrantScope(grant.binding)});
    forall x | x in after.records ensures GrantOk(after, issued, x) {
      assert GrantOk(r, issued, x);
    }
    forall scope | scope in after.scopes ensures ScopeOk(after, scope) {
      assert ScopeOk(r, scope);
    }
  }

  lemma OthersHold(s: Sys, c: nat, registry: Registry)
    requires CallsInv(s.registry, s.issued, s.calls) && c in s.calls && !s.calls[c].phase.Looked?
    requires forall t :: t in registry.records ==> t in s.registry.records
    requires forall t :: t in registry.records && t != s.calls[c].phase.res.token ==> registry.records[t] == s.registry.records[t]
    ensures CallsInv(registry, s.issued, Forget(s.calls, c))
  {
    FewerCalls(s.registry, s.issued, s.calls, c);
    var left := Forget(s.calls, c);
    forall d | d in left ensures CallOk(registry, s.issued, left[d]) {
      assert CallOk(s.registry, s.issued, s.calls[d]);
      assert Exclusive(s.calls, c, d);
    }
  }

  // ---------------------------------------------------------------- every run

  lemma EmptyRegistry(s: Sys, calls: map<nat, Call>)
    requires Inv(s) && (calls == s.calls || calls == map[])
    ensures Inv(s.(registry := Registry(map[], map[]), calls := calls))
  {
    var none := Registry(map[], map[]);
    SegmentsStay(s, none, calls);
    hide SegmentsInv;
    forall c | c in calls ensures CallOk(none, s.issued, calls[c]) {
      assert CallOk(s.registry, s.issued, s.calls[c]);
    }
    forall c, d | c in calls && d in calls ensures Exclusive(calls, c, d) {
      assert Exclusive(s.calls, c, d);
    }
  }

  lemma WaitKeeps(s: Sys, seconds: nat)
    requires Inv(s)
    ensures Inv(s.(now := s.now + seconds))
  {
    hide RegistryInv, CallsInv;
    var after := s.(now := s.now + seconds);
    forall t | t in after.issued ensures IssuedOk(after, t) { assert IssuedOk(s, t); }
    forall i | 0 <= i < |after.segments| ensures SegmentOk(after, after.segments[i]) { assert SegmentOk(s, s.segments[i]); }
    forall i, j | 0 <= i < j < |after.segments| ensures ScopesDiffer(after.segments, i, j) { assert ScopesDiffer(s.segments, i, j); }
  }

  lemma StepKeeps(s: Sys, e: Event)
    requires Inv(s)
    ensures Inv(Step(s, e))
  {
    hide IssueStep, ReserveStep, StartStep, FinishStep, RegistryInv, CallsInv, SegmentsInv, FreshId, FreshTokens, ValidateLive;
    if Step(s, e) != s {
      match e
      case EIssue(b, expires, uuid, random) => IssueKeeps(s, b, expires, uuid, random);
      case ELookup(c, req) =>
        NewCall(s.registry, s.issued, s.calls, c, req);
        SegmentsStay(s, s.registry, Step(s, e).calls);
      case EReserve(c, id) => ReserveKeeps(s, c, id);
      case EValidate(c) =>
        PhaseMoves(s.registry, s.issued, s.calls, c, Step(s, e).calls[c].phase);
        SegmentsStay(s, s.registry, Step(s, e).calls);
      case EStart(c, allowed, lost) => StartKeeps(s, c, allowed, lost);
      case EGateFailed(c) =>
        PhaseMoves(s.registry, s.issued, s.calls, c, Answered(s.calls[c].phase.res, false));
        SegmentsStay(s, s.registry, Step(s, e).calls);
      case EFinish(c) => FinishKeeps(s, c);
      case EOtherCommand(scope, digest) => LedgerGrows(s, scope, digest);
      case EWait(seconds) => WaitKeeps(s, seconds);
      case EReset => EmptyRegistry(s, s.calls);
      case ECrash => EmptyRegistry(s, map[]);
    }
  }

  lemma {:induction false} RunInv(s: Sys, es: seq<Event>)
    requires Started(s)
    ensures Inv(Run(s, es))
  {
    if es != [] {
      RunInv(s, es[..|es| - 1]);
      StepKeeps(Run(s, es[..|es| - 1]), es[|es| - 1]);
    }
  }

  // ---------------------------------------------------------------- theorems

  /** Over every interleaving of previews, starts, lost answers, purges, resets and crashes no token and no command
      starts two run segments. */
  lemma OneSegmentPerToken(s: Sys, es: seq<Event>, i: nat, j: nat)
    requires Started(s) && i < j < |Run(s, es).segments|
    ensures Run(s, es).segments[i].token != Run(s, es).segments[j].token
    ensures CommandScope(Run(s, es).segments[i].binding) != CommandScope(Run(s, es).segments[j].binding)
  {
    var t := Run(s, es);
    RunInv(s, es);
    hide Run, Started, RegistryInv, CallsInv;
    assert SegmentOk(t, t.segments[i]) && SegmentOk(t, t.segments[j]) && ScopesDiffer(t.segments, i, j);
  }

  /** A run starts with exactly the binding its token was previewed for, while the grant is live: at most 120 seconds
      after the preview. */
  lemma SegmentsWerePreviewed(s: Sys, es: seq<Event>, i: nat)
    requires Started(s) && i < |Run(s, es).segments|
    ensures var t := Run(s, es); var seg := t.segments[i];
            && seg.token in t.issued && t.issued[seg.token].binding == seg.binding
            && t.issued[seg.token].at <= seg.at < t.issued[seg.token].expires <= t.issued[seg.token].at + GRANT_SECONDS
  {
    var t := Run(s, es);
    RunInv(s, es);
    hide Run, Started, RegistryInv, CallsInv;
    assert SegmentOk(t, t.segments[i]);
    assert IssuedOk(t, t.segments[i].token);
  }

  /** No two calls are between Reserve and their end with the same token. */
  lemma OneHolderPerToken(s: Sys, es: seq<Event>, c: nat, d: nat)
    requires Started(s) && c in Run(s, es).calls && d in Run(s, es).calls && c != d
    requires !Run(s, es).calls[c].phase.Looked? && !Run(s, es).calls[d].phase.Looked?
    ensures Run(s, es).calls[c].phase.res.token != Run(s, es).calls[d].phase.res.token
  {
    var t := Run(s, es);
    RunInv(s, es);
    hide Run, Started, RegistryInv, SegmentsInv;
    assert Exclusive(t.calls, c, d);
  }

  /** The grant is gone for good: consumed, purged, reset or lost in a crash. */
  predicate Spent(s: Sys, t: Token) {
    t in s.issued && (t in s.registry.records ==> s.registry.records[t].consumed)
  }

  lemma StaysSpent(s: Sys, e: Event, t: Token)
    requires Inv(s) && Spent(s, t)
    ensures Spent(Step(s, e), t)
  {
    hide IssueStep, ReserveStep, StartStep, FinishStep, Inv, FreshId, FreshTokens, ValidateLive;
    match e
    case EIssue(b, expires, uuid, random) => if FreshTokens(s, random) { SpentIssue(s, b, expires, uuid, random, t); }
    case EReserve(c, id) => if c in s.calls { SpentReserve(s, c, id, t); }
    case EStart(c, allowed, lost) => if c in s.calls && s.calls[c].phase.Live? { SpentStart(s, c, allowed, lost, t); }
    case EFinish(c) => if c in s.calls && s.calls[c].phase.Answered? { SpentFinish(s, c, t); }
    case _ =>
  }

  lemma SpentIssue(s: Sys, b: Binding, expires: int, uuid: bool, random: seq<Token>, t: Token)
    requires Spent(s, t) && FreshTokens(s, random)
    ensures Spent(IssueStep(s, b, expires, uuid, random), t)
  {
    var p := Purge(s.registry, s.now);
    if Issue(s.registry, b, expires, uuid, random, s.now).1.Ok? && GrantScope(b) !in p.scopes {
      DrawIsNew(p.records, random, 0);
    }
  }

  lemma SpentReserve(s: Sys, c: nat, id: Id, t: Token)
    requires Spent(s, t) && c in s.calls
    ensures Spent(ReserveStep(s, c, id), t)
  {
  }

  lemma SpentStart(s: Sys, c: nat, allowed: bool, lost: bool, t: Token)
    requires Spent(s, t) && c in s.calls && s.calls[c].phase.Live?
    ensures Spent(StartStep(s, c, allowed, lost), t)
  {
  }

  lemma SpentFinish(s: Sys, c: nat, t: Token)
    requires Spent(s, t) && c in s.calls && s.calls[c].phase.Answered?
    ensures Spent(FinishStep(s, c), t)
  {
  }

  lemma SpentIsExpired(s: Sys, t: Token)
    requires Spent(s, t)
    ensures forall b, id, now :: Reserve(s.registry, t, b, id, now).1 == Err(Expired)
  {
  }

  /** A spent token is never reserved again, whatever happens later. */
  lemma {:induction false} SpentForever(s: Sys, es: seq<Event>, more: seq<Event>, t: Token)
    requires Started(s) && Spent(Run(s, es), t)
    ensures Spent(Run(s, es + more), t)
    ensures forall b, id, now :: Reserve(Run(s, es + more).registry, t, b, id, now).1 == Err(Expired)
    decreases |more|
  {
    hide Step, Inv, Spent, Reserve;
    if more == [] {
      assert es + more == es;
    } else {
      var front := more[..|more| - 1];
      SpentForever(s, es, front, t);
      assert (es + more)[..|es + more| - 1] == es + front;
      RunInv(s, es + front);
      StaysSpent(Run(s, es + front), more[|more| - 1], t);
    }
    SpentIsExpired(Run(s, es + more), t);
  }
}
