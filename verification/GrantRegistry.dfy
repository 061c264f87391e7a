/** transfer.GrantRegistry, updated in place under its mutex. */
module GrantRegistry {
  import opened Wrappers
  import opened Grants

  /** The scopes of a set of records. */
  function ScopesOf(records: map<Token, Grant>, tokens: set<Token>): set<string>
    requires tokens <= records.Keys
  {
    set t | t in tokens :: GrantScope(records[t].binding)
  }

  class Store {
    var records: map<Token, Grant>
    var scopes: map<string, Token>

    ghost function State(): Registry
      reads this
    {
      Registry(records, scopes)
    }

    constructor ()
      ensures State() == Registry(map[], map[])
    {
      records, scopes := map[], map[];
    }

    /** purgeLocked: deletes while it walks the records. */
    method PurgeLocked(now: int)
      modifies this
      ensures State() == Purge(old(State()), now)
    {
      var left := records.Keys;
      ghost var gone: set<Token> := {};
      while left != {}
        invariant left <= old(records).Keys
        invariant gone == set t | t in old(records) && t !in left && Purgeable(old(records)[t], now)
        invariant records == old(records) - gone && scopes == old(scopes) - ScopesOf(old(records), gone)
      {
        var token :| token in left;
        var grant := records[token];
        left := left - {token};
        if Purgeable(grant, now) {
          records := records - {token};
          scopes := scopes - {GrantScope(grant.binding)};
          gone := gone + {token};
        }
      }
      assert gone == set t | t in old(records) && Purgeable(old(records)[t], now);
    }

    method Issue(b: Binding, expires: int, commandIsUuid: bool, random: seq<Token>, now: int) returns (answer: Result<Token, Error>)
      modifies this
      ensures (State(), answer) == Grants.Issue(old(State()), b, expires, commandIsUuid, random, now)
    {
      if !WellFormed(b, commandIsUuid) || now >= expires || expires - now > GRANT_SECONDS { return Err(Mismatch); }
      PurgeLocked(now);
      var scope := GrantScope(b);
      if scope in scopes {
        var token := scopes[scope];
        if token !in records || BindingDigest(records[token].binding) != BindingDigest(b) || records[token].consumed
           || records[token].reservation.Some? {
          return Err(Mismatch);
        }
        return Ok(token);
      }
      var drawn := DrawToken(random);
      if drawn.Err? { return drawn; }
      records := records[drawn.value := Grant(b, expires, None, false)];
      scopes := scopes[scope := drawn.value];
      return drawn;
    }

    /** At most four draws from the random source. */
    method DrawToken(random: seq<Token>) returns (answer: Result<Token, Error>)
      ensures answer == Draw(records, random, 0)
    {
      var attempts := 0;
      while attempts < DRAWS
        invariant attempts <= DRAWS && Draw(records, random, attempts) == Draw(records, random, 0)
      {
        if attempts >= |random| { return Err(Entropy); }
        if random[attempts] !in records { return Ok(random[attempts]); }
        attempts := attempts + 1;
      }
      return Err(NoToken);
    }

    method Reserve(token: Token, expected: Binding, id: Id, now: int) returns (answer: Result<Reservation, Error>)
      modifies this
      ensures (State(), answer) == Grants.Reserve(old(State()), token, expected, id, now)
    {
      PurgeLocked(now);
      if token !in records || records[token].consumed { return Err(Expired); }
      if BindingDigest(records[token].binding) != BindingDigest(expected) { return Err(Mismatch); }
      if records[token].reservation.Some? { return Err(Reserved); }
      var grant := records[token];
      records := records[token := grant.(reservation := Some(id))];
      return Ok(Reservation(token, id, grant.binding, grant.expires));
    }

    method ValidateLive(res: Reservation, now: int) returns (error: Option<Error>)
      ensures error == Grants.ValidateLive(State(), res, now)
    {
      if res.token !in records || records[res.token].reservation != Some(res.id) || records[res.token].consumed { return Some(Mismatch); }
      if now >= records[res.token].expires { return Some(Expired); }
      return None;
    }

    method Commit(res: Reservation) returns (error: Option<Error>)
      modifies this
      ensures (State(), error) == CommitGrant(old(State()), res)
    {
      if res.token !in records || records[res.token].reservation != Some(res.id) || records[res.token].consumed { return Some(Mismatch); }
      var grant := records[res.token];
      records := records[res.token := grant.(consumed := true, reservation := None)];
      scopes := scopes - {GrantScope(grant.binding)};
      return None;
    }

    method Rollback(res: Reservation)
      modifies this
      ensures State() == Grants.Rollback(old(State()), res)
    {
      if res.token in records && records[res.token].reservation == Some(res.id) && !records[res.token].consumed {
        records := records[res.token := records[res.token].(reservation := None)];
      }
    }

    method Reset()
      modifies this
      ensures State() == Registry(map[], map[])
    {
      records, scopes := map[], map[];
    }
  }
}
