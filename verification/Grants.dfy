/** Import run grants: a previewed binding becomes a token, and the token starts at most one run segment
    (transfer.GrantRegistry, RunAuthorizer.Start and Resolve, and the ledger lookup of StartRun). */
module Grants {
  import opened Wrappers
  import Decimal

  type Token = string
  type Id = string

  /** SHA-256 as an injective function of its input. */
  datatype Sha = Sha256(preimage: string)

  // ---------------------------------------------------------------- bindings

  datatype Stand = Stand(revision: string, checkpoint: string, incident: string)

  datatype Material = Material(source: string, staging: string, normalization: string, spec: string, target: string)

  datatype Owner = Owner(profile: string, profileRevision: string, connection: string, generation: string,
                         protectionRevision: string, lease: string)

  datatype Binding = Binding(job: string, command: Id, action: string, decision: string, afterResolution: string,
                             stand: Stand, material: Material, owner: Owner)

  function Values(b: Binding): seq<string> {
    ["ImportRunGrantV1", b.job, b.command, b.action, b.decision, b.afterResolution, b.stand.revision,
     b.stand.checkpoint, b.stand.incident, b.material.source,
     b.material.staging, b.material.normalization, b.material.spec,
     b.material.target, b.owner.profile, b.owner.profileRevision, b.owner.connection,
     b.owner.generation, b.owner.protectionRevision, b.owner.lease]
  }

  /** Each value behind its length in decimal and a zero byte. */
  function Frame(value: string): string {
    Decimal.Format(|value|) + ['\0'] + value
  }

  function Frames(values: seq<string>): string {
    if values == [] then "" else Frame(values[0]) + Frames(values[1..])
  }

  function BindingDigest(b: Binding): Sha {
    Sha256(Frames(Values(b)))
  }

  predicate WellFormed(b: Binding, commandIsUuid: bool) {
    && b.job != "" && b.stand.checkpoint != "" && b.material.source != "" && b.material.staging != "" && b.material.normalization != ""
    && b.material.spec != "" && b.material.target != "" && b.owner.profile != "" && b.owner.connection != "" && b.owner.lease != ""
    && commandIsUuid
    && (forall text :: text in {b.stand.revision, b.owner.profileRevision, b.owner.generation, b.owner.protectionRevision}
                       ==> Decimal.GoCanonical(text).Some?)
    && b.action in {"START", "RESUME", "RESOLVE"}
  }

  // ---------------------------------------------------------------- the registry

  datatype Grant = Grant(binding: Binding, expires: int, reservation: Option<Id>, consumed: bool)

  datatype Registry = Registry(records: map<Token, Grant>, scopes: map<string, Token>)

  datatype Reservation = Reservation(token: Token, id: Id, binding: Binding, expires: int)

  datatype Error = Expired | Mismatch | Reserved | Entropy | NoToken

  const GRANT_SECONDS := 120

  const DRAWS: nat := 4

  function GrantScope(b: Binding): string {
    b.job + ['\U{1f}'] + b.command
  }

  predicate Purgeable(grant: Grant, now: int) {
    now >= grant.expires && grant.reservation.None?
  }

  /** Expired grants that nobody holds go, and their scopes with them. */
  function Purge(r: Registry, now: int): Registry {
    var gone := set t | t in r.records && Purgeable(r.records[t], now);
    Registry(r.records - gone, r.scopes - set t | t in gone :: GrantScope(r.records[t].binding))
  }

  /** Up to four draws until one is not in use; the reader may run dry. */
  function Draw(records: map<Token, Grant>, random: seq<Token>, k: nat): Result<Token, Error>
    requires k <= DRAWS
    decreases DRAWS - k
  {
    if k == DRAWS then Err(NoToken)
    else if k >= |random| then Err(Entropy)
    else if random[k] !in records then Ok(random[k])
    else Draw(records, random, k + 1)
  }

  function Issue(r0: Registry, b: Binding, expires: int, commandIsUuid: bool, random: seq<Token>, now: int): (Registry, Result<Token, Error>) {
    if !WellFormed(b, commandIsUuid) || now >= expires || expires - now > GRANT_SECONDS then (r0, Err(Mismatch))
    else
      var r := Purge(r0, now);
      if GrantScope(b) in r.scopes then
        var token := r.scopes[GrantScope(b)];
        if token !in r.records || BindingDigest(r.records[token].binding) != BindingDigest(b) || r.records[token].consumed
           || r.records[token].reservation.Some? then (r, Err(Mismatch))
        else (r, Ok(token))
      else
        match Draw(r.records, random, 0)
        case Err(e) => (r, Err(e))
        case Ok(token) => (Registry(r.records[token := Grant(b, expires, None, false)], r.scopes[GrantScope(b) := token]), Ok(token))
  }

  function Reserve(r0: Registry, token: Token, expected: Binding, id: Id, now: int): (Registry, Result<Reservation, Error>) {
    var r := Purge(r0, now);
    if token !in r.records || r.records[token].consumed then (r, Err(Expired))
    else if BindingDigest(r.records[token].binding) != BindingDigest(expected) then (r, Err(Mismatch))
    else if r.records[token].reservation.Some? then (r, Err(Reserved))
    else
      var grant := r.records[token];
      (r.(records := r.records[token := grant.(reservation := Some(id))]), Ok(Reservation(token, id, grant.binding, grant.expires)))
  }

  predicate Holds(r: Registry, res: Reservation) {
    res.token in r.records && r.records[res.token].reservation == Some(res.id) && !r.records[res.token].consumed
  }

  function ValidateLive(r: Registry, res: Reservation, now: int): Option<Error> {
    if !Holds(r, res) then Some(Mismatch)
    else if now >= r.records[res.token].expires then Some(Expired)
    else None
  }

  function CommitGrant(r: Registry, res: Reservation): (Registry, Option<Error>) {
    if !Holds(r, res) then (r, Some(Mismatch))
    else
      var grant := r.records[res.token];
      (Registry(r.records[res.token := grant.(consumed := true, reservation := None)], r.scopes - {GrantScope(grant.binding)}), None)
  }

  function Rollback(r: Registry, res: Reservation): Registry {
    if !Holds(r, res) then r else r.(records := r.records[res.token := r.records[res.token].(reservation := None)])
  }

  // ---------------------------------------------------------------- calls, ledger and segments

  /** A Start or Resolve call; `text` is what its command digest covers beside the hash of the token. */
  datatype Request = Request(token: Token, binding: Binding, text: string)

  datatype CommandDigest = CommandDigest(text: string, token: Sha)

  function DigestOf(req: Request): CommandDigest {
    CommandDigest(req.text, Sha256(req.token))
  }

  function CommandScope(b: Binding): string {
    "IMPORT" + ['\U{1f}'] + b.job + ['\U{1f}'] + b.action + ['\U{1f}'] + b.command
  }

  /** Where a call stands: the ledger had no answer, the grant is held, it was found live inside the gate, the
      transaction answered. */
  datatype Phase = Looked | Held(res: Reservation) | Live(res: Reservation) | Answered(res: Reservation, ok: bool)

  datatype Call = Call(req: Request, phase: Phase)

  datatype Segment = Segment(token: Token, binding: Binding, at: int)

  /** What a token was issued for; never forgotten. */
  datatype Issued = Issued(binding: Binding, expires: int, at: int)

  datatype Sys = Sys(registry: Registry, calls: map<nat, Call>, ledger: map<string, CommandDigest>, segments: seq<Segment>,
                     now: int, issued: map<Token, Issued>)

  datatype Event =
    | EIssue(binding: Binding, expires: int, commandIsUuid: bool, random: seq<Token>)
    | ELookup(call: nat, req: Request)
    | EReserve(call: nat, id: Id)
    | EValidate(call: nat)
    | EStart(call: nat, allowed: bool, lost: bool)
    | EGateFailed(call: nat)
    | EFinish(call: nat)
    | EOtherCommand(scope: string, digest: CommandDigest)
    | EWait(seconds: nat)
    | EReset
    | ECrash

  /** A fresh UUID is not the reservation id of anything in flight. */
  predicate FreshId(s: Sys, id: Id) {
    && (forall t :: t in s.registry.records ==> s.registry.records[t].reservation != Some(id))
    && (forall c :: c in s.calls && !s.calls[c].phase.Looked? ==> s.calls[c].phase.res.id != id)
  }

  /** Random tokens do not repeat. */
  predicate FreshTokens(s: Sys, random: seq<Token>) {
    forall i :: 0 <= i < |random| ==> random[i] !in s.issued
  }

  function Forget(calls: map<nat, Call>, c: nat): map<nat, Call> {
    calls - {c}
  }

  function Step(s: Sys, e: Event): Sys {
    match e
    case EIssue(b, expires, uuid, random) => if FreshTokens(s, random) then IssueStep(s, b, expires, uuid, random) else s
    case ELookup(c, req) =>
      if c in s.calls || CommandScope(req.binding) in s.ledger then s else s.(calls := s.calls[c := Call(req, Looked)])
    case EReserve(c, id) => if c in s.calls && s.calls[c].phase.Looked? && FreshId(s, id) then ReserveStep(s, c, id) else s
    case EValidate(c) =>
      if c !in s.calls || !s.calls[c].phase.Held? then s
      else
        var res := s.calls[c].phase.res;
        s.(calls := s.calls[c := s.calls[c].(phase := if ValidateLive(s.registry, res, s.now).None? then Live(res) else Answered(res, false))])
    case EStart(c, allowed, lost) => if c in s.calls && s.calls[c].phase.Live? then StartStep(s, c, allowed, lost) else s
    case EGateFailed(c) =>
      if c !in s.calls || !(s.calls[c].phase.Held? || s.calls[c].phase.Live?) then s
      else s.(calls := s.calls[c := s.calls[c].(phase := Answered(s.calls[c].phase.res, false))])
    case EFinish(c) => if c in s.calls && s.calls[c].phase.Answered? then FinishStep(s, c) else s
    case EOtherCommand(scope, digest) => if scope in s.ledger then s else s.(ledger := s.ledger[scope := digest])
    case EWait(seconds) => s.(now := s.now + seconds)
    case EReset => s.(registry := Registry(map[], map[]))
    case ECrash => s.(registry := Registry(map[], map[]), calls := map[])
  }

  function IssueStep(s: Sys, b: Binding, expires: int, uuid: bool, random: seq<Token>): Sys {
    var (registry, answer) := Issue(s.registry, b, expires, uuid, random, s.now);
    s.(registry := registry, issued := if answer.Ok? && answer.value !in s.issued then s.issued[answer.value := Issued(b, expires, s.now)] else s.issued)
  }

  function ReserveStep(s: Sys, c: nat, id: Id): Sys
    requires c in s.calls
  {
    var req := s.calls[c].req;
    var (registry, answer) := Reserve(s.registry, req.token, req.binding, id, s.now);
    match answer
    case Err(_) => s.(registry := registry, calls := Forget(s.calls, c))
    case Ok(res) => s.(registry := registry, calls := s.calls[c := Call(req, Held(res))])
  }

  /** StartRun or ResolveIncident in one transaction: the ledger is asked first, then the clock, then everything else
      (`allowed`). The answer may be lost after the commit. */
  function StartStep(s: Sys, c: nat, allowed: bool, lost: bool): Sys
    requires c in s.calls && s.calls[c].phase.Live?
  {
    var req, res := s.calls[c].req, s.calls[c].phase.res;
    var scope := CommandScope(req.binding);
    if scope in s.ledger then s.(calls := s.calls[c := Call(req, Answered(res, s.ledger[scope] == DigestOf(req)))])
    else if s.now >= res.expires || !allowed then s.(calls := s.calls[c := Call(req, Answered(res, false))])
    else s.(calls := s.calls[c := Call(req, Answered(res, !lost))], ledger := s.ledger[scope := DigestOf(req)],
            segments := s.segments + [Segment(req.token, req.binding, s.now)])
  }

  /** After an error the ledger is asked once more: a committed command consumes the grant, anything else gives it back. */
  function FinishStep(s: Sys, c: nat): Sys
    requires c in s.calls && s.calls[c].phase.Answered?
  {
    var req, res := s.calls[c].req, s.calls[c].phase.res;
    var scope := CommandScope(req.binding);
    var committed := s.calls[c].phase.ok || (scope in s.ledger && s.ledger[scope] == DigestOf(req));
    s.(registry := Rollback(if committed then CommitGrant(s.registry, res).0 else s.registry, res), calls := Forget(s.calls, c))
  }

  predicate Started(s: Sys) {
    s.registry == Registry(map[], map[]) && s.calls == map[] && s.segments == [] && s.issued == map[]
  }

  function Run(s: Sys, es: seq<Event>): Sys {
    if es == [] then s else Step(Run(s, es[..|es| - 1]), es[|es| - 1])
  }
}
