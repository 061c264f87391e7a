/** When a repeated preview gets its token back: as long as the scope of its job and command points to the grant, which it
    does until an older or newer grant of the same job and command is purged or consumed. */
module GrantScopes {
  import opened Wrappers
  import opened Grants
  import opened GrantSafety

  /** The scope of the grant leads to it. */
  predicate Points(r: Registry, t: Token) {
    t in r.records && GrantScope(r.records[t].binding) in r.scopes && r.scopes[GrantScope(r.records[t].binding)] == t
  }

  predicate Namesakes(r: Registry, x: Token, t: Token) {
    x != t && x in r.records && t in r.records && GrantScope(r.records[x].binding) == GrantScope(r.records[t].binding)
  }

  /** Purging now removes another grant of the same job and command. */
  predicate PurgesNamesake(r: Registry, t: Token, now: int) {
    exists x :: x in r.records && Namesakes(r, x, t) && Purgeable(r.records[x], now)
  }

  /** Untouched: neither held nor consumed nor expired. */
  predicate Untouched(r: Registry, t: Token, b: Binding, now: int) {
    t in r.records && r.records[t].binding == b && r.records[t].reservation.None? && !r.records[t].consumed && now < r.records[t].expires
  }

  // ---------------------------------------------------------------- one call

  lemma PurgeScope(r: Registry, issued: map<Token, Issued>, t: Token, now: int)
    requires RegistryInv(r, issued) && t in r.records && t in Purge(r, now).records
    ensures Purge(r, now).records[t] == r.records[t]
    ensures Points(Purge(r, now), t) <==> Points(r, t) && !PurgesNamesake(r, t, now)
  {
    hide GrantScope, RegistryInv;
    var gone := set x | x in r.records && Purgeable(r.records[x], now);
    var scope := GrantScope(r.records[t].binding);
    if PurgesNamesake(r, t, now) {
      var x :| x in r.records && Namesakes(r, x, t) && Purgeable(r.records[x], now);
      assert x in gone;
    } else {
      forall x | x in gone ensures GrantScope(r.records[x].binding) != scope {
        assert !Namesakes(r, x, t) && x != t;
      }
    }
  }

  /** A preview of an untouched grant gets its token back exactly when the scope points to it and this call purges no
      namesake. */
  lemma IssueRepeats(r: Registry, issued: map<Token, Issued>, t: Token, b: Binding, expires: int, random: seq<Token>, now: int)
    requires RegistryInv(r, issued) && WellFormed(b, true) && now < expires <= now + GRANT_SECONDS
    requires Untouched(r, t, b, now) && forall i :: 0 <= i < |random| ==> random[i] != t
    ensures Issue(r, b, expires, true, random, now).1 == Ok(t) <==> Points(r, t) && !PurgesNamesake(r, t, now)
  {
    hide WellFormed, BindingDigest, PurgesNamesake, RegistryInv;
    PurgeKeeps(r, issued, now);
    var p := Purge(r, now);
    StaysThroughPurge(r, t, now);
    PurgeScope(r, issued, t, now);
    hide Purge;
    if GrantScope(b) !in p.scopes && Draw(p.records, random, 0).Ok? { DrawIsNew(p.records, random, 0); }
  }

  lemma StaysThroughPurge(r: Registry, t: Token, now: int)
    requires t in r.records && !Purgeable(r.records[t], now)
    ensures t in Purge(r, now).records
  {
  }

  // ---------------------------------------------------------------- runs

  /** The step walks the records to purge them. */
  predicate Purges(s: Sys, e: Event) {
    match e
    case EIssue(b, expires, uuid, random) =>
      FreshTokens(s, random) && WellFormed(b, uuid) && s.now < expires && expires - s.now <= GRANT_SECONDS
    case EReserve(c, id) => c in s.calls && s.calls[c].phase.Looked? && FreshId(s, id)
    case _ => false
  }

  /** The step consumes another grant of the same job and command. */
  predicate CommitsNamesake(s: Sys, e: Event, t: Token) {
    && e.EFinish? && e.call in s.calls && s.calls[e.call].phase.Answered? && Committed(s, e.call)
    && Holds(s.registry, s.calls[e.call].phase.res) && Namesakes(s.registry, s.calls[e.call].phase.res.token, t)
  }

  predicate Committed(s: Sys, c: nat)
    requires c in s.calls && s.calls[c].phase.Answered?
  {
    var scope := CommandScope(s.calls[c].req.binding);
    s.calls[c].phase.ok || (scope in s.ledger && s.ledger[scope] == DigestOf(s.calls[c].req))
  }

  predicate LosesScope(s: Sys, e: Event, t: Token) {
    (Purges(s, e) && PurgesNamesake(s.registry, t, s.now)) || CommitsNamesake(s, e, t)
  }

  predicate Alive(s: Sys, t: Token) {
    t in s.issued && !Spent(s, t)
  }

  lemma IssueScope(s: Sys, b: Binding, expires: int, uuid: bool, random: seq<Token>, t: Token)
    requires Inv(s) && FreshTokens(s, random) && Alive(s, t) && Alive(IssueStep(s, b, expires, uuid, random), t)
    ensures Points(IssueStep(s, b, expires, uuid, random).registry, t)
            <==> Points(s.registry, t) && !LosesScope(s, EIssue(b, expires, uuid, random), t)
  {
    hide BindingDigest, PurgesNamesake, RegistryInv, CallsInv, SegmentsInv, WellFormed;
    var p := Purge(s.registry, s.now);
    if Purges(s, EIssue(b, expires, uuid, random)) {
      PurgeKeeps(s.registry, s.issued, s.now);
      if Draw(p.records, random, 0).Ok? { DrawIsNew(p.records, random, 0); }
      assert t in p.records;
      PurgeScope(s.registry, s.issued, t, s.now);
    }
  }

  lemma ReserveScope(s: Sys, c: nat, id: Id, t: Token)
    requires Inv(s) && c in s.calls && s.calls[c].phase.Looked? && FreshId(s, id) && Alive(s, t) && Alive(ReserveStep(s, c, id), t)
    ensures Points(ReserveStep(s, c, id).registry, t) <==> Points(s.registry, t) && !LosesScope(s, EReserve(c, id), t)
  {
    hide BindingDigest, PurgesNamesake, RegistryInv, CallsInv, SegmentsInv, Purge;
    PurgeKeeps(s.registry, s.issued, s.now);
    assert t in Purge(s.registry, s.now).records;
    PurgeScope(s.registry, s.issued, t, s.now);
  }

  lemma FinishScope(s: Sys, c: nat, t: Token)
    requires Inv(s) && c in s.calls && s.calls[c].phase.Answered? && Alive(s, t) && Alive(FinishStep(s, c), t)
    ensures Points(FinishStep(s, c).registry, t) <==> Points(s.registry, t) && !LosesScope(s, EFinish(c), t)
  {
    hide RegistryInv, CallsInv, SegmentsInv, GrantScope;
    var res := s.calls[c].phase.res;
    if Committed(s, c) && Holds(s.registry, res) {
      var after := CommitGrant(s.registry, res).0;
      assert res.token != t;
      assert !Holds(after, res);
    }
  }

  /** One step: a grant that lives on keeps its scope exactly when the step neither purges nor consumes a namesake. */
  lemma StepScope(s: Sys, e: Event, t: Token)
    requires Inv(s) && Alive(s, t) && Alive(Step(s, e), t)
    ensures Points(Step(s, e).registry, t) <==> Points(s.registry, t) && !LosesScope(s, e, t)
  {
    hide Inv, IssueStep, ReserveStep, StartStep, FinishStep, Points, PurgesNamesake, FreshTokens, FreshId, ValidateLive, Namesakes;
    match e
    case EIssue(b, expires, uuid, random) => if FreshTokens(s, random) { IssueScope(s, b, expires, uuid, random, t); }
    case EReserve(c, id) =>
      if c in s.calls && s.calls[c].phase.Looked? && FreshId(s, id) { ReserveScope(s, c, id, t); }
    case EStart(c, allowed, lost) =>
      if c in s.calls && s.calls[c].phase.Live? { StartLeavesRegistry(s, c, allowed, lost); }
    case EFinish(c) => if c in s.calls && s.calls[c].phase.Answered? { FinishScope(s, c, t); }
    case _ =>
  }

  lemma StartLeavesRegistry(s: Sys, c: nat, allowed: bool, lost: bool)
    requires c in s.calls && s.calls[c].phase.Live?
    ensures StartStep(s, c, allowed, lost).registry == s.registry
  {
  }

  lemma {:induction false} RunFromInv(s: Sys, es: seq<Event>)
    requires Inv(s)
    ensures Inv(Run(s, es))
  {
    hide Step, Inv;
    if es != [] {
      RunFromInv(s, es[..|es| - 1]);
      StepKeeps(Run(s, es[..|es| - 1]), es[|es| - 1]);
    }
  }

  lemma {:induction false} IssuedStays(s: Sys, es: seq<Event>, t: Token)
    requires t in s.issued
    ensures t in Run(s, es).issued
  {
    if es != [] { IssuedStays(s, es[..|es| - 1], t); }
  }

  predicate LosesScopeAt(s: Sys, es: seq<Event>, i: nat, t: Token)
    requires i < |es|
  {
    LosesScope(Run(s, es[..i]), es[i], t)
  }

  /** Over a run that a grant survives, its scope leads to it at the end exactly when no step purged or consumed a namesake. */
  lemma {:induction false} RunScope(s: Sys, es: seq<Event>, t: Token)
    requires Inv(s) && Points(s.registry, t) && Alive(s, t) && Alive(Run(s, es), t)
    ensures Points(Run(s, es).registry, t) <==> forall i :: 0 <= i < |es| ==> !LosesScopeAt(s, es, i, t)
  {
    hide Step, Inv, Points, Spent, LosesScope;
    if es != [] {
      var n := |es| - 1;
      var front := es[..n];
      RunFromInv(s, front);
      IssuedStays(s, front, t);
      if Spent(Run(s, front), t) { StaysSpent(Run(s, front), es[n], t); }
      RunScope(s, front, t);
      StepScope(Run(s, front), es[n], t);
      forall i | 0 <= i < n ensures LosesScopeAt(s, es, i, t) <==> LosesScopeAt(s, front, i, t) {
        assert es[..i] == front[..i];
      }
      assert es[..n] == front && (LosesScopeAt(s, es, n, t) <==> LosesScope(Run(s, front), es[n], t));
    }
  }

  /** From the preview that issued a token on, over any run: a repeated preview gets the token back, while its grant is
      untouched, exactly when since then no step has purged or consumed another grant of the same job and command, and this
      call purges none. */
  lemma IssueRepeatsExactly(s0: Sys, before: seq<Event>, first: Event, more: seq<Event>, t: Token, b: Binding, expires: int, random: seq<Token>)
    requires Started(s0) && t !in Run(s0, before).issued && t in Step(Run(s0, before), first).issued
    requires var s := Run(Step(Run(s0, before), first), more);
             Untouched(s.registry, t, b, s.now) && WellFormed(b, true) && s.now < expires <= s.now + GRANT_SECONDS && FreshTokens(s, random)
    ensures var issuing := Step(Run(s0, before), first);
            var s := Run(issuing, more);
            Issue(s.registry, b, expires, true, random, s.now).1 == Ok(t)
            <==> (forall i :: 0 <= i < |more| ==> !LosesScopeAt(issuing, more, i, t)) && !PurgesNamesake(s.registry, t, s.now)
  {
    hide Started, LosesScopeAt, PurgesNamesake, Untouched, WellFormed, Issue, Step;
    var issuing := Step(Run(s0, before), first);
    RunInv(s0, before);
    StepKeeps(Run(s0, before), first);
    IssuedPoints(Run(s0, before), first, t);
    RunFromInv(issuing, more);
    IssuedStays(issuing, more, t);
    var s := Run(issuing, more);
    UntouchedIsAlive(s, t, b);
    RunScope(issuing, more, t);
    hide Run;
    IssueRepeats(s.registry, s.issued, t, b, expires, random, s.now);
  }

  lemma UntouchedIsAlive(s: Sys, t: Token, b: Binding)
    requires Untouched(s.registry, t, b, s.now) && t in s.issued
    ensures Alive(s, t)
  {
  }

  lemma IssuedPoints(s: Sys, e: Event, t: Token)
    requires Inv(s) && t !in s.issued && t in Step(s, e).issued
    ensures Points(Step(s, e).registry, t) && Alive(Step(s, e), t)
  {
    hide RegistryInv, CallsInv, SegmentsInv, ReserveStep, StartStep, FinishStep, BindingDigest, WellFormed;
    match e
    case EIssue(b, expires, uuid, random) =>
      PurgeKeeps(s.registry, s.issued, s.now);
      var p := Purge(s.registry, s.now);
      if GrantScope(b) in p.scopes { ScopedIsIssued(p, s.issued, GrantScope(b)); }
    case EReserve(c, id) => if c in s.calls { ReserveIssuesNothing(s, c, id); }
    case EStart(c, allowed, lost) => if c in s.calls && s.calls[c].phase.Live? { OthersIssueNothing(s, c, allowed, lost); }
    case EFinish(c) => if c in s.calls && s.calls[c].phase.Answered? { FinishIssuesNothing(s, c); }
    case _ =>
  }

  lemma ReserveIssuesNothing(s: Sys, c: nat, id: Id)
    requires c in s.calls
    ensures ReserveStep(s, c, id).issued == s.issued
  {
  }

  lemma OthersIssueNothing(s: Sys, c: nat, allowed: bool, lost: bool)
    requires c in s.calls && s.calls[c].phase.Live?
    ensures StartStep(s, c, allowed, lost).issued == s.issued
  {
  }

  lemma FinishIssuesNothing(s: Sys, c: nat)
    requires c in s.calls && s.calls[c].phase.Answered?
    ensures FinishStep(s, c).issued == s.issued
  {
  }

  // ---------------------------------------------------------------- the ways to lose a scope

  /** x was consumed and expires at 120; the same command was previewed again and y is live until 220. */
  function Renewed(old_: Binding, b: Binding, x: Token, y: Token): Registry {
    Registry(map[x := Grant(old_, 120, None, true), y := Grant(b, 220, None, false)], map[GrantScope(b) := y])
  }

  predicate Renewable(old_: Binding, b: Binding) {
    WellFormed(old_, true) && WellFormed(b, true) && GrantScope(old_) == GrantScope(b)
  }

  /** Preview, start, commit and a new preview of the same command lead there. */
  lemma RenewedIsReached(old_: Binding, b: Binding, x: Token, y: Token, id: Id)
    requires Renewable(old_, b) && x != y
    ensures var r1 := Issue(Registry(map[], map[]), old_, 120, true, [x], 0).0;
            var (r2, held) := Reserve(r1, x, old_, id, 0);
            held.Ok? && Issue(CommitGrant(r2, held.value).0, b, 220, true, [y], 100) == (Renewed(old_, b, x, y), Ok(y))
  {
    hide WellFormed, BindingDigest;
    var r1 := Issue(Registry(map[], map[]), old_, 120, true, [x], 0).0;
    assert r1 == Registry(map[x := Grant(old_, 120, None, false)], map[GrantScope(old_) := x]);
    var (r2, held) := Reserve(r1, x, old_, id, 0);
    assert held == Ok(Reservation(x, id, old_, 120));
    var r3 := CommitGrant(r2, held.value).0;
    assert r3 == Registry(map[x := Grant(old_, 120, None, true)], map[]);
    NothingExpires(r3, 100);
    assert Issue(r3, b, 220, true, [y], 100).0 == Renewed(old_, b, x, y);
  }

  lemma ConsumedGoes(old_: Binding, b: Binding, x: Token, y: Token)
    requires x != y && GrantScope(old_) == GrantScope(b)
    ensures Purge(Renewed(old_, b, x, y), 120) == Registry(map[y := Grant(b, 220, None, false)], map[])
  {
    hide GrantScope;
    var r := Renewed(old_, b, x, y);
    var gone := set t | t in r.records && Purgeable(r.records[t], 120);
    assert gone == {x};
    assert (set t | t in gone :: GrantScope(r.records[t].binding)) == {GrantScope(b)} by { assert x in gone; }
  }

  /** The repeated preview itself purges the namesake: a second live token for one binding. */
  lemma ForgottenByItself(old_: Binding, b: Binding, x: Token, y: Token, z: Token)
    requires Renewable(old_, b) && x != y && y != z
    ensures var (r, answer) := Issue(Renewed(old_, b, x, y), b, 240, true, [z], 120);
            && answer == Ok(z)
            && r == Twice(b, y, false, z, map[GrantScope(b) := z])
  {
    hide WellFormed, BindingDigest;
    ConsumedGoes(old_, b, x, y);
    hide Purge;
  }

  /** An unrelated preview purges it earlier: the repeated preview purges nothing, and still draws a second token. */
  lemma ForgottenByAnother(old_: Binding, b: Binding, other: Binding, x: Token, y: Token, z: Token, w: Token)
    requires Renewable(old_, b) && WellFormed(other, true) && GrantScope(other) != GrantScope(b)
    requires x != y && y != z && w != y && w != z
    ensures var r := Issue(Renewed(old_, b, x, y), other, 200, true, [w], 120).0;
            && Untouched(r, y, b, 130) && !PurgesNamesake(r, y, 130)
            && Issue(r, b, 240, true, [z], 130).1 == Ok(z)
  {
    hide WellFormed, BindingDigest, GrantScope;
    ConsumedGoes(old_, b, x, y);
    var r := Issue(Renewed(old_, b, x, y), other, 200, true, [w], 120).0;
    assert r == Registry(map[y := Grant(b, 220, None, false), w := Grant(other, 200, None, false)], map[GrantScope(other) := w]);
    NothingExpires(r, 130);
  }

  lemma NothingExpires(r: Registry, now: int)
    requires forall t :: t in r.records ==> now < r.records[t].expires
    ensures Purge(r, now) == r && forall t :: !PurgesNamesake(r, t, now)
  {
  }

  /** Two live tokens for one binding, as a forgotten scope leaves them. */
  function Twice(b: Binding, y: Token, consumed: bool, z: Token, scopes: map<string, Token>): Registry {
    Registry(map[y := Grant(b, 220, None, consumed), z := Grant(b, 240, None, false)], scopes)
  }

  lemma OlderStarts(b: Binding, y: Token, z: Token, id: Id)
    requires y != z
    ensures var (r, held) := Reserve(Twice(b, y, false, z, map[GrantScope(b) := z]), y, b, id, 130);
            held.Ok? && CommitGrant(r, held.value).0 == Twice(b, y, true, z, map[])
  {
    hide BindingDigest, GrantScope;
    NothingExpires(Twice(b, y, false, z, map[GrantScope(b) := z]), 130);
    hide Purge;
  }

  /** Starting from the older of two live tokens drops the scope of the newer one. */
  lemma ForgottenByCommit(b: Binding, y: Token, z: Token, v: Token, id: Id)
    requires WellFormed(b, true) && y != z && v != y && v != z
    ensures var (r, held) := Reserve(Twice(b, y, false, z, map[GrantScope(b) := z]), y, b, id, 130);
            && held.Ok?
            && var after := CommitGrant(r, held.value).0;
               && Untouched(after, z, b, 140) && !PurgesNamesake(after, z, 140)
               && Issue(after, b, 250, true, [v], 140).1 == Ok(v)
  {
    hide WellFormed, BindingDigest, GrantScope, Reserve, CommitGrant;
    OlderStarts(b, y, z, id);
    NothingExpires(Twice(b, y, true, z, map[]), 140);
    hide Purge, PurgesNamesake;
  }
}
